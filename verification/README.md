# Analyzer registry of the Kubernetes API linter

This project models the analyzer registry of the linter: an ordered,
write-once list of analyzer initializers (each with a name, an
on-by-default flag and a constructor). The registry answers three
requests:

- the names of all registered linters;
- the names of the linters that are on by default;
- the ordered list of analyzers to run for an enable/disable request.

The enable and disable lists may hold the wildcard `*`. A list means "all"
only when the wildcard is its one distinct entry.

Each initializer is included or skipped by one rule:

- an explicit disable beats everything;
- otherwise a wildcard enable or an explicit enable includes it;
- otherwise, unless the disable list is the wildcard, its default flag decides.

Layout:

- `config.dfy`, module `Config`: the wildcard, the enable/disable request
  (`Linters`) and the per-linter configuration (`LintersConfig`) that is
  handed to every initializer.
- `registry.dfy`, module `Analysis`: the `Initializer` datatype and the
  specification functions (`AllNames`, `DefaultNames`, `Included`,
  `Selected`, `InitAll`, `Initialized`). It also holds the `Registry`
  class. Its three methods loop over the initializers like the Go code
  does, and each is proved equal to the matching specification function.
- `registry_properties.dfy`, module `AnalysisProperties`: what those
  functions mean. It covers name membership, the wildcard rule, order
  preservation, and each case of the override policy stated as an
  order-preserving filter.

The analyzer type is a type parameter `A`, and each initializer's
constructor is a function `LintersConfig -> A`. Functions are
deterministic, so resolving the same request and configuration twice
gives equal results.

Three consequences of the code are easy to miss:

- A list that mixes the wildcard with other names is accepted. The
  wildcard in it then counts as one more name (`WildcardOnlyIff`).
- The wildcard test counts distinct entries, so any other name next to a
  lone wildcard cancels it, even a name that matches no initializer. An
  enable list `[*, x]` enables only the default-on analyzers, `x` (and any
  analyzer named `*`). A disable list `[*, x]` disables only `x` (and any
  analyzer named `*`) and lets the default-on analyzers run again
  (`UnknownNameCancelsWildcard`). Everywhere else, names that match no
  initializer change nothing (`UnknownEnableInert`, `UnknownDisableInert`).
- The disable test is plain membership, so a wildcard disable also
  excludes an initializer whose own name is `*`.

## Model

| member | source | states |
|---|---|---|
| `Analysis.Registry.NewRegistry` | pkg/analysis/registry.go:43-51 | the registry holds exactly the comment-start, JSON-tags and optional-or-required initializers, in that order |
| `Analysis.Registry.AllLinters` | pkg/analysis/registry.go:69-77 | the loop that inserts every initializer's name yields `AllNames` of the registered initializers |
| `Analysis.Registry.DefaultLinters` | pkg/analysis/registry.go:55-65 | the loop that inserts the names of default-on initializers yields `DefaultNames` of the registered initializers |
| `Analysis.Registry.InitializeLinters` | pkg/analysis/registry.go:80-96 | the loop that appends `Init(lintersCfg)` under the line-90 condition yields the selected initializers, each initialized, in registration order |
| `AnalysisProperties.AllNamesMembership` | pkg/analysis/registry.go:69-77 | a name is in the all-linters set iff some registered initializer has that name |
| `AnalysisProperties.DefaultNamesMembership` | pkg/analysis/registry.go:55-65 | a name is in the default set iff some default-on initializer has that name |
| `AnalysisProperties.DefaultNamesSubset` | pkg/analysis/registry.go:55-77 | every default linter is a known linter |
| `AnalysisProperties.AllNamesCardinality` | pkg/analysis/registry.go:69-77 | with pairwise distinct names the all-linters set has exactly one entry per initializer |
| `AnalysisProperties.WildcardOnlyIff` | pkg/analysis/registry.go:83-87 | a list means "all" iff it is non-empty and all its entries are the wildcard |
| `AnalysisProperties.UnknownNameCancelsWildcard` | pkg/analysis/registry.go:86-90 | for an initializer named neither `u` nor the wildcard, with `u` not the wildcard: `[*]` enables it but `[*, u]` enables it only if it is default-on; disable `[*]` excludes it but disable `[*, u]` lets its default flag decide |
| `AnalysisProperties.UnknownEnableInert` | pkg/analysis/registry.go:83-93 | when the enable list is not the wildcard, adding a non-wildcard name that matches no initializer leaves the selection unchanged |
| `AnalysisProperties.UnknownDisableInert` | pkg/analysis/registry.go:84-93 | when the disable list is not the wildcard, adding a non-wildcard name that matches no initializer leaves the selection unchanged |
| `AnalysisProperties.SelectedAsFilter` | pkg/analysis/registry.go:89-93 | selection equals the order-preserving filter by any predicate that agrees with the line-90 decision on every initializer |
| `AnalysisProperties.InitializedOrder` | pkg/analysis/registry.go:81-95 | the result is no longer than the registry; its j-th analyzer is `Init(lintersCfg)` of the j-th included initializer; the indices strictly increase; every included initializer appears |
| `AnalysisProperties.DisableWins` | pkg/analysis/registry.go:84-90 | no selected initializer carries a name listed in the disable list, whatever the enable list holds |
| `AnalysisProperties.WildcardEnable` | pkg/analysis/registry.go:86-90 | under a wildcard enable the selection is every initializer not explicitly disabled, in order, even when the disable list is the wildcard |
| `AnalysisProperties.WildcardDisable` | pkg/analysis/registry.go:87-90 | under a wildcard disable without a wildcard enable the selection is exactly the explicitly enabled and not disabled initializers, in order |
| `AnalysisProperties.DefaultsOnly` | pkg/analysis/registry.go:83-93 | with empty enable and disable lists the result is the default-on initializers, initialized, in registration order |
| `AnalysisProperties.EnableOne` | pkg/analysis/registry.go:83-93 | enabling one concrete name selects the default-on initializers plus the ones with that name, in order |
| `AnalysisProperties.EnableDefaultOffScenario` | pkg/analysis/registry.go:89-93 | with A on, B off and C on by default, enabling B yields the analyzers of A, B and C in that order |

## Left out

- The configuration validator (`pkg/validation`) is not part of this model: it is a separate component that runs before the registry, and its pattern checks rest on Go's `regexp` library.
- The individual analyzers (comment start, JSON tags, optional-or-required, no-phase) are not modelled. They walk Go syntax trees and type information. Their `Initializer()` bodies are not part of this model.
- `Analysis.Registry.NewRegistry` takes the three built-in initializers as parameters. Their names, default flags and analyzers are set in code that is not part of this model.
- The `config` package is not part of this model. `LintersConfig` carries only the fields its test mentions, and the registry never reads them. The wildcard's value is taken to be `"*"`. The proofs do not depend on that value.
- `Init` is a pure function of the configuration. The model does not capture that each Go `Init` allocates a fresh analyzer pointer on each call, or the identity of those pointers.
- The `Registry` interface has a single implementation, which is modelled directly as the `Registry` class. The `sets.Set` helper is replaced by Dafny's `set<string>`.
- The initializer list is a `const` field, set once by the constructor, because `registry.go` never writes it after construction. Concurrent readers need no model.
