/**
 * What the material stage promises, stated over the session functions that
 * the context methods are proved to follow.
 */
module MaterialProperties {
  import opened Wrappers
  import opened Elements
  import opened MaterialRecord
  import opened ConverterContext
  import opened ConverterMaterial

  // ---------------------------------------------------------------------
  // The default material

  /** A second `createDefaultMaterial` returns the same material and changes nothing. */
  lemma DefaultIdempotent(s: Session)
    ensures DefaultOutcome(DefaultOutcome(s).session) == DefaultOutcome(s)
  {
  }

  // ---------------------------------------------------------------------
  // Resolving one instance

  /** An instance whose material link does not resolve: one warning, then the default material. */
  lemma MissingMaterialFallsBack(env: Env, inst: InstanceMaterial, s: Session)
    requires MaterialFromLink(inst.material, env.document).None?
    ensures var r := ResolveOutcome(env, inst, s);
      && r.session.log == s.log + [Diagnostic(Warning, MaterialNotFound)]
      && r.material == (if DefaultMaterialId in s.registry then s.registry[DefaultMaterialId] else NewMaterial(DefaultMaterialId))
      && r.session.registry == s.registry[DefaultMaterialId := r.material]
  {
  }

  /** A material whose effect does not resolve, or whose effect has no technique: one warning, then the default material. */
  lemma MissingEffectFallsBack(env: Env, inst: InstanceMaterial, s: Session)
    requires MaterialFromLink(inst.material, env.document).Some?
    requires var effect := EffectFromLink(MaterialFromLink(inst.material, env.document).value.effect, env.document);
      effect.None? || effect.value.technique.None?
    ensures var r := ResolveOutcome(env, inst, s);
      && r.session.log == s.log + [Diagnostic(Warning, EffectNotFound)]
      && r.material == (if DefaultMaterialId in s.registry then s.registry[DefaultMaterialId] else NewMaterial(DefaultMaterialId))
      && r.session.registry == s.registry[DefaultMaterialId := r.material]
  {
  }

  /** The chain instance -> material -> effect -> technique resolves to `def` and `t`. */
  predicate ResolvesTo(env: Env, inst: InstanceMaterial, def: MaterialDef, t: Technique)
  {
    && MaterialFromLink(inst.material, env.document) == Some(def)
    && EffectFromLink(def.effect, env.document).Some?
    && EffectFromLink(def.effect, env.document).value.technique == Some(t)
  }

  /**
   * Once the default id is registered, a resolution that reaches a technique
   * returns the registered default material, whatever the material's own id,
   * registers nothing, and writes only the constant-colour warning.
   */
  lemma ResolvedToDefaultOnceRegistered(env: Env, inst: InstanceMaterial, def: MaterialDef, t: Technique, s: Session)
    requires ResolvesTo(env, inst, def, t)
    requires DefaultMaterialId in s.registry
    ensures var r := ResolveOutcome(env, inst, s);
      && r.material == s.registry[DefaultMaterialId]
      && r.session.registry == s.registry
      && r.session.log == s.log + (if HasConstantColor(t) then [Diagnostic(Warning, ConstantColors)] else [])
  {
  }

  /**
   * The full-success path: the record carries the material's id and the
   * textures created from the diffuse, specular and bump channels, and is
   * registered; a constant colour only adds one warning.
   */
  lemma ResolvedToNewMaterial(env: Env, inst: InstanceMaterial, def: MaterialDef, t: Technique, s: Session)
    requires ResolvesTo(env, inst, def, t)
    requires DefaultMaterialId !in s.registry
    ensures var r := ResolveOutcome(env, inst, s);
      && r.material.id == def.id
      && r.material.diffuse == env.createTexture(t.diffuse)
      && r.material.specular == env.createTexture(t.specular)
      && r.material.normal == env.createTexture(t.bump)
      && r.session.registry == Registered(s.registry, r.material, env.onDuplicateId)
      && r.session.log == s.log + (if HasConstantColor(t) then [Diagnostic(Warning, ConstantColors)] else [])
  {
  }

  // ---------------------------------------------------------------------
  // The symbol map

  /** The symbols an instance carries: none or one. */
  function SymbolOf(inst: InstanceMaterial): set<string>
  {
    if inst.symbol.Some? then {inst.symbol.value} else {}
  }

  /** The distinct non-null symbols of a list of instances. */
  function SymbolsOf(insts: seq<InstanceMaterial>): set<string>
  {
    set i | 0 <= i < |insts| && insts[i].symbol.Some? :: insts[i].symbol.value
  }

  /** How many instances have no symbol. */
  function NullSymbolCount(insts: seq<InstanceMaterial>): nat
    decreases |insts|
  {
    if insts == [] then 0
    else NullSymbolCount(insts[..|insts| - 1]) + (if insts[|insts| - 1].symbol.None? then 1 else 0)
  }

  /** How many instances repeat a symbol that an earlier instance already carries. */
  function DuplicateCount(insts: seq<InstanceMaterial>): nat
    decreases |insts|
  {
    if insts == [] then 0
    else
      var last := insts[|insts| - 1];
      DuplicateCount(insts[..|insts| - 1]) + (if last.symbol.Some? && last.symbol.value in SymbolsOf(insts[..|insts| - 1]) then 1 else 0)
  }

  lemma SymbolsOfSnoc(insts: seq<InstanceMaterial>, inst: InstanceMaterial)
    ensures SymbolsOf(insts + [inst]) == SymbolsOf(insts) + SymbolOf(inst)
  {
    var xs := insts + [inst];
    forall x | x in SymbolsOf(xs)
      ensures x in SymbolsOf(insts) + SymbolOf(inst)
    {
      var i :| 0 <= i < |xs| && xs[i].symbol.Some? && xs[i].symbol.value == x;
      if i < |insts| {
        assert insts[i] == xs[i];
      }
    }
    forall x | x in SymbolsOf(insts)
      ensures x in SymbolsOf(xs)
    {
      var i :| 0 <= i < |insts| && insts[i].symbol.Some? && insts[i].symbol.value == x;
      assert xs[i] == insts[i];
    }
    if inst.symbol.Some? {
      assert xs[|insts|] == inst;
    }
  }

  /** The keys of the map are exactly the distinct non-null symbols of the input. */
  lemma {:induction false} MapKeysAreSymbols(env: Env, insts: seq<InstanceMaterial>, s: Session)
    ensures MapOutcome(env, insts, s).symbols.Keys == SymbolsOf(insts)
    decreases |insts|
  {
    if insts != [] {
      MapKeysAreSymbols(env, insts[..|insts| - 1], s);
      assert insts == insts[..|insts| - 1] + [insts[|insts| - 1]];
      SymbolsOfSnoc(insts[..|insts| - 1], insts[|insts| - 1]);
    }
  }

  /** A binding, once made, survives every later instance. */
  lemma {:induction false} MapOutcomeExtends(env: Env, insts: seq<InstanceMaterial>, s: Session, i: nat)
    requires i <= |insts|
    ensures var before := MapOutcome(env, insts[..i], s).symbols;
      var after := MapOutcome(env, insts, s).symbols;
      forall k | k in before :: k in after && after[k] == before[k]
    decreases |insts|
  {
    if i < |insts| {
      var prefix := insts[..|insts| - 1];
      assert prefix[..i] == insts[..i];
      MapOutcomeExtends(env, prefix, s, i);
    } else {
      assert insts[..i] == insts;
    }
  }

  /**
   * First wins: the symbol of the first instance that carries it is bound to
   * what resolving that instance returned, and later instances with the same
   * symbol leave the binding alone.
   */
  lemma FirstWins(env: Env, insts: seq<InstanceMaterial>, s: Session, j: nat)
    requires j < |insts| && insts[j].symbol.Some?
    requires insts[j].symbol.value !in SymbolsOf(insts[..j])
    ensures var symbols := MapOutcome(env, insts, s).symbols;
      var before := MapOutcome(env, insts[..j], s).session;
      && insts[j].symbol.value in symbols
      && symbols[insts[j].symbol.value] == ResolveOutcome(env, insts[j], before).material
  {
    assert insts[..j + 1][..j] == insts[..j];
    assert insts[..j + 1][j] == insts[j];
    MapKeysAreSymbols(env, insts[..j], s);
    MapOutcomeExtends(env, insts, s, j + 1);
  }

  /** The diagnostic count `multiset(log)[d]` grows by one when `d` is appended and not at all for a resolution warning. */
  lemma AppendedCounts(before: seq<Diagnostic>, after: seq<Diagnostic>, d: Diagnostic)
    requires AppendsAtMostOneWarning(before, after)
    requires !IsResolutionWarning(d)
    ensures multiset(after)[d] == multiset(before)[d]
    ensures forall i | |before| <= i < |after| :: after[i].level == Warning
  {
    if after != before {
      assert after == before + [after[|before|]];
    }
  }

  /** Every error written to `log` from position `from` on is a duplicate-symbol error. */
  ghost predicate ErrorsAreDuplicates(log: seq<Diagnostic>, from: nat)
  {
    forall i | from <= i < |log| && log[i].level == Error :: log[i].kind == DuplicateSymbol
  }

  /**
   * The diagnostics one iteration of the loop writes. An instance without a
   * symbol, or with a symbol already bound, adds no key and writes exactly
   * one diagnostic, and nothing else changes.
   */
  lemma MapStepDiagnostics(env: Env, st: MapState, inst: InstanceMaterial)
    ensures inst.symbol.None? ==>
      MapStep(env, st, inst) == MapState(st.symbols, Logged(st.session, Warning, NoSymbol))
    ensures inst.symbol.Some? && inst.symbol.value in st.symbols ==>
      MapStep(env, st, inst) == MapState(st.symbols, Logged(st.session, Error, DuplicateSymbol))
    ensures var log, log' := st.session.log, MapStep(env, st, inst).session.log;
      && |log| <= |log'| && log'[..|log|] == log
      && multiset(log')[Diagnostic(Warning, NoSymbol)]
         == multiset(log)[Diagnostic(Warning, NoSymbol)] + (if inst.symbol.None? then 1 else 0)
      && multiset(log')[Diagnostic(Error, DuplicateSymbol)]
         == multiset(log)[Diagnostic(Error, DuplicateSymbol)] + (if inst.symbol.Some? && inst.symbol.value in st.symbols then 1 else 0)
      && ErrorsAreDuplicates(log', |log|)
  {
    var log, log' := st.session.log, MapStep(env, st, inst).session.log;
    if inst.symbol.Some? && inst.symbol.value !in st.symbols {
      AppendedCounts(log, log', Diagnostic(Warning, NoSymbol));
      AppendedCounts(log, log', Diagnostic(Error, DuplicateSymbol));
    }
  }

  /**
   * Each instance without a symbol writes one `NoSymbol` warning, each
   * repeated symbol one `DuplicateSymbol` error, and nothing else written is
   * an error.
   */
  lemma {:induction false} MapDiagnosticCounts(env: Env, insts: seq<InstanceMaterial>, s: Session)
    ensures var log := MapOutcome(env, insts, s).session.log;
      && multiset(log)[Diagnostic(Warning, NoSymbol)] == multiset(s.log)[Diagnostic(Warning, NoSymbol)] + NullSymbolCount(insts)
      && multiset(log)[Diagnostic(Error, DuplicateSymbol)] == multiset(s.log)[Diagnostic(Error, DuplicateSymbol)] + DuplicateCount(insts)
      && ErrorsAreDuplicates(log, |s.log|)
    decreases |insts|
  {
    if insts != [] {
      var prefix, last := insts[..|insts| - 1], insts[|insts| - 1];
      var prev := MapOutcome(env, prefix, s);
      var log := MapOutcome(env, insts, s).session.log;
      assert MapOutcome(env, insts, s) == MapStep(env, prev, last);
      MapDiagnosticCounts(env, prefix, s);
      MapKeysAreSymbols(env, prefix, s);
      MapStepDiagnostics(env, prev, last);
      forall i | |s.log| <= i < |log| && log[i].level == Error
        ensures log[i].kind == DuplicateSymbol
      {
        if i < |prev.session.log| {
          assert log[i] == log[..|prev.session.log|][i];
        }
      }
    }
  }

  /** The id of every material bound in the map is a registry key. */
  ghost predicate BoundAreRegistered(st: MapState)
  {
    forall k | k in st.symbols :: st.symbols[k].id in st.session.registry
  }

  /** One iteration keeps every bound material's id a registry key. */
  lemma MapStepKeepsRegistered(env: Env, st: MapState, inst: InstanceMaterial)
    requires WellKeyed(st.session.registry) && BoundAreRegistered(st)
    ensures BoundAreRegistered(MapStep(env, st, inst))
  {
  }

  /** At the end, every bound material's id is a registry key. */
  lemma {:induction false} BoundMaterialsRegistered(env: Env, insts: seq<InstanceMaterial>, s: Session)
    requires WellKeyed(s.registry)
    ensures BoundAreRegistered(MapOutcome(env, insts, s))
    decreases |insts|
  {
    if insts != [] {
      var prefix := insts[..|insts| - 1];
      BoundMaterialsRegistered(env, prefix, s);
      MapStepKeepsRegistered(env, MapOutcome(env, prefix, s), insts[|insts| - 1]);
    }
  }

  /**
   * Once the default id is registered, building a map registers nothing and
   * binds every symbol to the registered default material.
   */
  lemma {:induction false} MapAfterDefault(env: Env, insts: seq<InstanceMaterial>, s: Session)
    requires DefaultMaterialId in s.registry
    ensures var st := MapOutcome(env, insts, s);
      && st.session.registry == s.registry
      && forall k | k in st.symbols :: st.symbols[k] == s.registry[DefaultMaterialId]
    decreases |insts|
  {
    if insts != [] {
      MapAfterDefault(env, insts[..|insts| - 1], s);
    }
  }

  /** Two instances with one symbol: the first one's material is bound, and one error is written. */
  lemma DuplicateSymbolScenario(env: Env, s: Session, symbol: string, x: Link, y: Link)
    ensures var first := InstanceMaterial(Some(symbol), x);
      var st := MapOutcome(env, [first, InstanceMaterial(Some(symbol), y)], s);
      && st.symbols == map[symbol := ResolveOutcome(env, first, s).material]
      && multiset(st.session.log)[Diagnostic(Error, DuplicateSymbol)] == multiset(s.log)[Diagnostic(Error, DuplicateSymbol)] + 1
  {
    var first := InstanceMaterial(Some(symbol), x);
    var insts := [first, InstanceMaterial(Some(symbol), y)];
    assert insts[..1] == [first];
    assert [first][..0] == [];
    var one := MapOutcome(env, [first], s);
    assert MapOutcome(env, [], s) == MapState(map[], s);
    assert one == MapStep(env, MapState(map[], s), first);
    assert MapOutcome(env, insts, s) == MapStep(env, one, insts[1]);
    MapStepDiagnostics(env, MapState(map[], s), first);
    MapStepDiagnostics(env, one, insts[1]);
  }
}
