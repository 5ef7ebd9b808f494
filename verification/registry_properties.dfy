/** What the registry's queries and its resolution of an enable/disable
    request mean, stated independently of how they are computed. */
module AnalysisProperties {
  import opened Config
  import opened Analysis

  // ---------------------------------------------------------------------
  // Name queries
  // ---------------------------------------------------------------------

  /** `AllLinters` holds exactly the names of the registered initializers. */
  lemma {:induction false} AllNamesMembership<A>(s: seq<Initializer<A>>, n: string)
    ensures n in AllNames(s) <==> exists k :: 0 <= k < |s| && s[k].name == n
  {
    if s != [] {
      var p := s[..|s| - 1];
      AllNamesMembership(p, n);
      if exists k :: 0 <= k < |s| && s[k].name == n {
        var k :| 0 <= k < |s| && s[k].name == n;
        if k < |p| {
          assert p[k].name == n;
        }
      }
      if n in AllNames(p) {
        var k :| 0 <= k < |p| && p[k].name == n;
        assert s[k].name == n;
      }
    }
  }

  /** `DefaultLinters` holds exactly the names of the default-on initializers. */
  lemma {:induction false} DefaultNamesMembership<A>(s: seq<Initializer<A>>, n: string)
    ensures n in DefaultNames(s) <==> exists k :: 0 <= k < |s| && s[k].isDefault && s[k].name == n
  {
    if s != [] {
      var p := s[..|s| - 1];
      DefaultNamesMembership(p, n);
      if exists k :: 0 <= k < |s| && s[k].isDefault && s[k].name == n {
        var k :| 0 <= k < |s| && s[k].isDefault && s[k].name == n;
        if k < |p| {
          assert p[k].isDefault && p[k].name == n;
        }
      }
      if n in DefaultNames(p) {
        var k :| 0 <= k < |p| && p[k].isDefault && p[k].name == n;
        assert s[k].isDefault && s[k].name == n;
      }
    }
  }

  /** Every default linter is a known linter. */
  lemma {:induction false} DefaultNamesSubset<A>(s: seq<Initializer<A>>)
    ensures DefaultNames(s) <= AllNames(s)
  {
    if s != [] {
      DefaultNamesSubset(s[..|s| - 1]);
    }
  }

  /** With pairwise distinct names, `AllLinters` has one entry per initializer. */
  lemma {:induction false} AllNamesCardinality<A>(s: seq<Initializer<A>>)
    requires forall k, k' :: 0 <= k < k' < |s| ==> s[k].name != s[k'].name
    ensures |AllNames(s)| == |s|
  {
    if s != [] {
      var p := s[..|s| - 1];
      AllNamesCardinality(p);
      AllNamesMembership(p, s[|s| - 1].name);
      assert s[|s| - 1].name !in AllNames(p);
    }
  }

  // ---------------------------------------------------------------------
  // The wildcard
  // ---------------------------------------------------------------------

  /** A list stands for "all" exactly when it is non-empty and every entry
      is the wildcard: one more distinct name switches the meaning off. */
  lemma WildcardOnlyIff(names: seq<string>)
    ensures IsWildcardOnly(ToSet(names)) <==> names != [] && forall n :: n in names ==> n == Wildcard
  {
    var d := ToSet(names);
    if IsWildcardOnly(d) {
      assert |d - {Wildcard}| == |d| - 1 == 0;
      assert d == {Wildcard};
      forall n | n in names
        ensures n == Wildcard
      {
        assert n in d;
      }
      assert Wildcard in names;
    } else if names != [] && forall n :: n in names ==> n == Wildcard {
      assert names[0] in d;
      assert d == {Wildcard};
    }
  }

  /** A name next to a lone wildcard cancels it, even a name that matches
      no initializer: `[*, u]` enables only the default-on analyzers where
      `[*]` enables all of them, and a disable list `[*, u]` lets the
      default-on analyzers run again where `[*]` switches them off. */
  lemma UnknownNameCancelsWildcard<A>(i: Initializer<A>, u: string)
    requires u != Wildcard && i.name != u && i.name != Wildcard
    ensures Included(Linters([Wildcard], []), i)
    ensures Included(Linters([Wildcard, u], []), i) == i.isDefault
    ensures !Included(Linters([], [Wildcard]), i)
    ensures Included(Linters([], [Wildcard, u]), i) == i.isDefault
  {
    WildcardOnlyIff([Wildcard]);
    WildcardOnlyIff([Wildcard, u]);
    WildcardOnlyIff([]);
    assert u in [Wildcard, u];
  }

  // ---------------------------------------------------------------------
  // Resolution
  // ---------------------------------------------------------------------

  /** Selection is the order-preserving filter by any predicate that takes the
      same decision on every registered initializer. */
  lemma {:induction false} SelectedAsFilter<A>(s: seq<Initializer<A>>, cfg: Linters, keep: Initializer<A> -> bool)
    requires forall k :: 0 <= k < |s| ==> keep(s[k]) == Included(cfg, s[k])
    ensures Selected(s, cfg) == Filter(s, keep)
  {
    if s != [] {
      var p := s[..|s| - 1];
      assert forall k :: 0 <= k < |p| ==> p[k] == s[k];
      SelectedAsFilter(p, cfg, keep);
    }
  }

  /** Initializing one more initializer appends its analyzer. */
  lemma InitAllAppend<A>(s: seq<Initializer<A>>, i: Initializer<A>, lintersCfg: LintersConfig)
    ensures InitAll(s + [i], lintersCfg) == InitAll(s, lintersCfg) + [i.init(lintersCfg)]
  {
    assert (s + [i])[..|s|] == s;
  }

  /** The analyzers are built, once each and in registration order, by
      exactly the initializers the request includes: `idx` lists the
      positions of those initializers, strictly increasing. */
  lemma {:induction false} InitializedOrder<A>(s: seq<Initializer<A>>, cfg: Linters, lintersCfg: LintersConfig)
    returns (idx: seq<int>)
    ensures |idx| == |Initialized(s, cfg, lintersCfg)| <= |s|
    ensures forall j :: 0 <= j < |idx| ==>
              0 <= idx[j] < |s| && Included(cfg, s[idx[j]]) &&
              Initialized(s, cfg, lintersCfg)[j] == s[idx[j]].init(lintersCfg)
    ensures forall j, j' :: 0 <= j < j' < |idx| ==> idx[j] < idx[j']
    ensures forall k :: 0 <= k < |s| && Included(cfg, s[k]) ==> k in idx
  {
    if s == [] {
      idx := [];
    } else {
      var p := s[..|s| - 1];
      var last := |s| - 1;
      var prev := InitializedOrder(p, cfg, lintersCfg);
      assert forall k :: 0 <= k < |p| ==> p[k] == s[k];
      InitAllLength(Selected(p, cfg), lintersCfg);
      if Included(cfg, s[last]) {
        assert Selected(s, cfg) == Selected(p, cfg) + [s[last]];
        InitAllAppend(Selected(p, cfg), s[last], lintersCfg);
        idx := prev + [last];
      } else {
        assert Selected(s, cfg) == Selected(p, cfg);
        idx := prev;
      }
    }
  }

  /** An explicitly disabled analyzer is never initialized, whatever the
      enable list says (the wildcard, or the same name). */
  lemma {:induction false} DisableWins<A>(s: seq<Initializer<A>>, cfg: Linters, n: string)
    requires n in cfg.disable
    ensures forall j :: 0 <= j < |Selected(s, cfg)| ==> Selected(s, cfg)[j].name != n
  {
    if s != [] {
      var p := s[..|s| - 1];
      DisableWins(p, cfg, n);
      assert Selected(s, cfg) == Selected(p, cfg) + (if Included(cfg, s[|s| - 1]) then [s[|s| - 1]] else []);
    }
  }

  /** A wildcard enable includes every initializer not explicitly disabled,
      even when the disable list is the wildcard too. */
  lemma {:induction false} WildcardEnable<A>(s: seq<Initializer<A>>, cfg: Linters)
    requires AllEnabled(cfg)
    ensures Selected(s, cfg) == Filter(s, (i: Initializer<A>) => i.name !in cfg.disable)
  {
    SelectedAsFilter(s, cfg, (i: Initializer<A>) => i.name !in cfg.disable);
  }

  /** A wildcard disable (without a wildcard enable) keeps exactly the
      explicitly enabled initializers: default-on ones are switched off. */
  lemma {:induction false} WildcardDisable<A>(s: seq<Initializer<A>>, cfg: Linters)
    requires AllDisabled(cfg) && !AllEnabled(cfg)
    ensures Selected(s, cfg) == Filter(s, (i: Initializer<A>) => i.name in cfg.enable && i.name !in cfg.disable)
  {
    SelectedAsFilter(s, cfg, (i: Initializer<A>) => i.name in cfg.enable && i.name !in cfg.disable);
  }

  /** With empty lists the result is the default-on analyzers in
      registration order. */
  lemma DefaultsOnly<A>(s: seq<Initializer<A>>, lintersCfg: LintersConfig)
    ensures Initialized(s, Linters([], []), lintersCfg) == InitAll(Filter(s, (i: Initializer<A>) => i.isDefault), lintersCfg)
  {
    SelectedAsFilter(s, Linters([], []), (i: Initializer<A>) => i.isDefault);
  }

  /** Enabling one concrete name adds that analyzer to the default-on ones. */
  lemma {:induction false} EnableOne<A>(s: seq<Initializer<A>>, n: string)
    requires n != Wildcard
    ensures Selected(s, Linters([n], [])) == Filter(s, (i: Initializer<A>) => i.isDefault || i.name == n)
  {
    WildcardOnlyIff([n]);
    SelectedAsFilter(s, Linters([n], []), (i: Initializer<A>) => i.isDefault || i.name == n);
  }

  /** Three analyzers A (on), B (off), C (on); enabling B yields all three
      in registration order. */
  lemma EnableDefaultOffScenario<A>(a: Initializer<A>, b: Initializer<A>, c: Initializer<A>,
                                    lintersCfg: LintersConfig)
    requires a.isDefault && !b.isDefault && c.isDefault
    ensures Initialized([a, b, c], Linters([b.name], []), lintersCfg)
            == [a.init(lintersCfg), b.init(lintersCfg), c.init(lintersCfg)]
  {
    var s := [a, b, c];
    var cfg := Linters([b.name], []);
    assert ToSet(cfg.disable) == {} && !AllDisabled(cfg);
    assert b.name in ToSet(cfg.enable);
    assert Included(cfg, a) && Included(cfg, b) && Included(cfg, c);
    assert s[..2] == [a, b] && [a, b][..1] == [a] && [a][..0] == [];
    assert Selected([a][..0], cfg) == [];
    assert Selected([a], cfg) == [a];
    assert Selected([a, b], cfg) == [a, b];
    assert Selected(s, cfg) == s;
    assert InitAll([a], lintersCfg) == [a.init(lintersCfg)];
    assert InitAll([a, b], lintersCfg) == [a.init(lintersCfg), b.init(lintersCfg)];
  }

  /** Adding a name that matches no initializer to an enable list that is not
      the wildcard changes nothing. (Next to a lone wildcard it does; see
      `UnknownNameCancelsWildcard`.) */
  lemma {:induction false} UnknownEnableInert<A>(s: seq<Initializer<A>>, cfg: Linters, u: string)
    requires u !in AllNames(s) && u != Wildcard && !AllEnabled(cfg)
    ensures Selected(s, Linters(cfg.enable + [u], cfg.disable)) == Selected(s, cfg)
  {
    var cfg' := Linters(cfg.enable + [u], cfg.disable);
    WildcardOnlyIff(cfg'.enable);
    assert u in cfg'.enable;
    forall k | 0 <= k < |s|
      ensures Included(cfg', s[k]) == Included(cfg, s[k])
    {
      AllNamesMembership(s, u);
      assert s[k].name != u;
      assert s[k].name in ToSet(cfg'.enable) <==> s[k].name in ToSet(cfg.enable);
    }
    var keep := (i: Initializer<A>) => Included(cfg, i);
    SelectedAsFilter(s, cfg', keep);
    SelectedAsFilter(s, cfg, keep);
  }

  /** Adding a name that matches no initializer to a disable list that is not
      the wildcard changes nothing. */
  lemma {:induction false} UnknownDisableInert<A>(s: seq<Initializer<A>>, cfg: Linters, u: string)
    requires u !in AllNames(s) && u != Wildcard && !AllDisabled(cfg)
    ensures Selected(s, Linters(cfg.enable, cfg.disable + [u])) == Selected(s, cfg)
  {
    var cfg' := Linters(cfg.enable, cfg.disable + [u]);
    WildcardOnlyIff(cfg'.disable);
    assert u in cfg'.disable;
    forall k | 0 <= k < |s|
      ensures Included(cfg', s[k]) == Included(cfg, s[k])
    {
      AllNamesMembership(s, u);
      assert s[k].name != u;
      assert s[k].name in ToSet(cfg'.disable) <==> s[k].name in ToSet(cfg.disable);
    }
    var keep := (i: Initializer<A>) => Included(cfg, i);
    SelectedAsFilter(s, cfg', keep);
    SelectedAsFilter(s, cfg, keep);
  }
}
