/**
 * Material resolution: the default material, the resolution of one
 * `<instance_material>` along instance -> material -> effect -> technique,
 * and the symbol -> material map of one geometry binding.
 *
 * Each operation is a method on the context that follows the converter step
 * by step, and is proved equal to a function over the session
 * (`DefaultOutcome`, `ResolveOutcome`, `MapOutcome`) about which the
 * properties are stated. One test departs from the code as written: a symbol
 * counts as taken when it is a key of the map being built. The code reads
 * `symbols[symbol] != null` on a plain object, which is also true for names
 * the object inherits; that reading is modelled for one loop step in
 * `SymbolLookupFinding.MapStepAsWritten`.
 */
module ConverterMaterial {
  import opened Wrappers
  import opened Elements
  import opened MaterialRecord
  import opened ConverterContext

  /** The material a resolution returns and the session it leaves behind. */
  datatype Resolution = Resolution(material: Material, session: Session)

  /** The diagnostics resolving one instance may write: all of them warnings. */
  predicate IsResolutionWarning(d: Diagnostic)
  {
    d.level == Warning && (d.kind == MaterialNotFound || d.kind == EffectNotFound || d.kind == ConstantColors)
  }

  /** `after` is `before`, or `before` followed by one resolution warning. */
  predicate AppendsAtMostOneWarning(before: seq<Diagnostic>, after: seq<Diagnostic>)
  {
    after == before
    || (|after| == |before| + 1 && after[..|before|] == before && IsResolutionWarning(after[|before|]))
  }

  // ---------------------------------------------------------------------
  // createDefaultMaterial

  /** The outcome of `createDefaultMaterial` on session `s`. */
  function DefaultOutcome(s: Session): (r: Resolution)
    ensures r.session.log == s.log
    ensures DefaultMaterialId in r.session.registry && r.session.registry[DefaultMaterialId] == r.material
    ensures r.session.registry.Keys == s.registry.Keys + {DefaultMaterialId}
    ensures forall id | id in s.registry :: r.session.registry[id] == s.registry[id]
    ensures DefaultMaterialId in s.registry ==> r.session == s
    ensures DefaultMaterialId !in s.registry ==> r.material == NewMaterial(DefaultMaterialId)
    ensures WellKeyed(s.registry) ==> WellKeyed(r.session.registry)
  {
    if DefaultMaterialId in s.registry then
      Resolution(s.registry[DefaultMaterialId], s)
    else
      var m := NewMaterial(DefaultMaterialId);
      Resolution(m, s.(registry := s.registry[DefaultMaterialId := m]))
  }

  method CreateDefaultMaterial(ctx: Context) returns (result: Material)
    requires ctx.Valid()
    modifies ctx
    ensures ctx.Valid()
    ensures Resolution(result, ctx.State()) == DefaultOutcome(old(ctx.State()))
  {
    var found := ctx.FindMaterial(DefaultMaterialId);
    if found.Some? {
      result := found.value;
    } else {
      result := NewMaterial(DefaultMaterialId);
      ctx.RegisterMaterial(result);
    }
  }

  // ---------------------------------------------------------------------
  // createMaterial

  /** Some channel of the technique carries a constant colour. */
  predicate HasConstantColor(t: Technique)
  {
    t.diffuse.color.Some? || t.specular.color.Some? || t.bump.color.Some?
  }

  /** The record built from a material and its technique: diffuse, specular and bump textures. */
  function Converted(env: Env, def: MaterialDef, t: Technique): Material
  {
    Material(def.id, env.createTexture(t.diffuse), env.createTexture(t.specular), env.createTexture(t.bump))
  }

  /** One warning of `kind`, then the default material. */
  function Fallback(s: Session, kind: Kind): Resolution
  {
    DefaultOutcome(Logged(s, Warning, kind))
  }

  /** The outcome of `createMaterial(inst)` on session `s`. */
  function ResolveOutcome(env: Env, inst: InstanceMaterial, s: Session): (r: Resolution)
    ensures AppendsAtMostOneWarning(s.log, r.session.log)
    ensures s.registry.Keys <= r.session.registry.Keys <= s.registry.Keys + {r.material.id}
    ensures forall id | id in s.registry && id != r.material.id :: r.session.registry[id] == s.registry[id]
    ensures DefaultMaterialId in s.registry ==> r.session.registry == s.registry && r.material == s.registry[DefaultMaterialId]
    ensures WellKeyed(s.registry) ==> WellKeyed(r.session.registry) && r.material.id in r.session.registry
    ensures WellKeyed(s.registry) && env.onDuplicateId == Overwrite ==> r.session.registry[r.material.id] == r.material
  {
    match MaterialFromLink(inst.material, env.document)
    case None => Fallback(s, MaterialNotFound)
    case Some(def) =>
      match EffectFromLink(def.effect, env.document)
      case None => Fallback(s, EffectNotFound)
      case Some(effect) =>
        match effect.technique
        case None => Fallback(s, EffectNotFound)
        case Some(t) =>
          var s' := if HasConstantColor(t) then Logged(s, Warning, ConstantColors) else s;
          if DefaultMaterialId in s'.registry then
            Resolution(s'.registry[DefaultMaterialId], s')
          else
            var m := Converted(env, def, t);
            Resolution(m, s'.(registry := Registered(s'.registry, m, env.onDuplicateId)))
  }

  method CreateMaterial(inst: InstanceMaterial, ctx: Context) returns (result: Material)
    requires ctx.Valid()
    modifies ctx
    ensures ctx.Valid()
    ensures Resolution(result, ctx.State()) == ResolveOutcome(ctx.env, inst, old(ctx.State()))
  {
    var material := MaterialFromLink(inst.material, ctx.env.document);
    if material.None? {
      ctx.Write(Warning, MaterialNotFound);
      result := CreateDefaultMaterial(ctx);
      return;
    }

    var effect := EffectFromLink(material.value.effect, ctx.env.document);
    if effect.None? {
      ctx.Write(Warning, EffectNotFound);
      result := CreateDefaultMaterial(ctx);
      return;
    }

    var technique := effect.value.technique;
    if technique.None? {
      ctx.Write(Warning, EffectNotFound);
      result := CreateDefaultMaterial(ctx);
      return;
    }
    var t := technique.value;

    if t.diffuse.color.Some? || t.specular.color.Some? || t.bump.color.Some? {
      ctx.Write(Warning, ConstantColors);
    }

    // The registry is consulted under the default id, not under the material's own id.
    var found := ctx.FindMaterial(DefaultMaterialId);
    if found.Some? {
      return found.value;
    }

    result := NewMaterial(material.value.id);
    result := result.(id := material.value.id);
    result := result.(diffuse := ctx.env.createTexture(t.diffuse));
    result := result.(specular := ctx.env.createTexture(t.specular));
    result := result.(normal := ctx.env.createTexture(t.bump));
    ctx.RegisterMaterial(result);
  }

  // ---------------------------------------------------------------------
  // getMaterialMap

  /** The symbol dictionary being built, and the session beside it. */
  datatype MapState = MapState(symbols: map<string, Material>, session: Session)

  /** One iteration of `getMaterialMap`'s loop, with the duplicate test read as key presence. */
  function MapStep(env: Env, st: MapState, inst: InstanceMaterial): (r: MapState)
    ensures inst.symbol.Some? && inst.symbol.value !in st.symbols
            ==> r.symbols.Keys == st.symbols.Keys + {inst.symbol.value}
    ensures inst.symbol.None? || inst.symbol.value in st.symbols ==> r.symbols == st.symbols
    ensures forall k | k in st.symbols :: k in r.symbols && r.symbols[k] == st.symbols[k]
    ensures |st.session.log| <= |r.session.log| && r.session.log[..|st.session.log|] == st.session.log
  {
    match inst.symbol
    case None => st.(session := Logged(st.session, Warning, NoSymbol))
    case Some(symbol) =>
      if symbol in st.symbols then
        st.(session := Logged(st.session, Error, DuplicateSymbol))
      else
        var r := ResolveOutcome(env, inst, st.session);
        MapState(st.symbols[symbol := r.material], r.session)
  }

  /** The outcome of `getMaterialMap(insts)` on session `s`: the loop run over every instance in order. */
  function MapOutcome(env: Env, insts: seq<InstanceMaterial>, s: Session): (st: MapState)
    ensures s.registry.Keys <= st.session.registry.Keys
    ensures |s.log| <= |st.session.log| && st.session.log[..|s.log|] == s.log
    ensures WellKeyed(s.registry) ==> WellKeyed(st.session.registry)
    decreases |insts|
  {
    if insts == [] then MapState(map[], s)
    else MapStep(env, MapOutcome(env, insts[..|insts| - 1], s), insts[|insts| - 1])
  }

  /** The dictionary `getMaterialMap` returns. */
  class ConverterMaterialMap {
    var symbols: map<string, Material>

    constructor ()
      ensures symbols == map[]
    {
      symbols := map[];
    }
  }

  method GetMaterialMap(insts: seq<InstanceMaterial>, ctx: Context) returns (result: ConverterMaterialMap)
    requires ctx.Valid()
    modifies ctx
    ensures ctx.Valid()
    ensures fresh(result)
    ensures MapState(result.symbols, ctx.State()) == MapOutcome(ctx.env, insts, old(ctx.State()))
  {
    ghost var s0 := ctx.State();
    result := new ConverterMaterialMap();

    for i := 0 to |insts|
      invariant MapState(result.symbols, ctx.State()) == MapOutcome(ctx.env, insts[..i], s0)
      invariant ctx.Valid()
    {
      assert insts[..i + 1][..i] == insts[..i];
      var inst := insts[i];

      if inst.symbol.None? {
        ctx.Write(Warning, NoSymbol);
        continue;
      }
      var symbol := inst.symbol.value;

      if symbol in result.symbols {
        ctx.Write(Error, DuplicateSymbol);
        continue;
      }

      var m := CreateMaterial(inst, ctx);
      result.symbols := result.symbols[symbol := m];
    }
    assert insts[..|insts|] == insts;
  }
}
