/**
 * The duplicate-symbol test of `getMaterialMap` as written reads
 * `symbols[symbol]` from a plain JavaScript object. Such an object inherits
 * the members of `Object.prototype`, so for a symbol like "toString" the
 * read is non-null before anything was bound, and the first instance with
 * that symbol is rejected as a duplicate. The rest of the model tests key
 * presence (`MapStep`), which is what the duplicate-symbol test is evidently
 * meant to do.
 */
module SymbolLookupFinding {
  import opened Wrappers
  import opened Elements
  import opened MaterialRecord
  import opened ConverterContext
  import opened ConverterMaterial

  /**
   * Names every plain object inherits from `Object.prototype`: the members of
   * section 20.1.3 of ECMAScript, including the legacy accessor methods
   * `__defineGetter__`, `__defineSetter__`, `__lookupGetter__` and
   * `__lookupSetter__`, and the `__proto__` accessor.
   */
  const InheritedNames: set<string> :=
    {"constructor", "hasOwnProperty", "isPrototypeOf", "propertyIsEnumerable",
     "toLocaleString", "toString", "valueOf",
     "__defineGetter__", "__defineSetter__", "__lookupGetter__", "__lookupSetter__",
     "__proto__"}

  /** `symbols[symbol] != null` on a plain object whose own keys are those of `symbols`. */
  predicate ReadsAsBound(symbols: map<string, Material>, symbol: string)
  {
    symbol in symbols || symbol in InheritedNames
  }

  /** One iteration of the loop with the duplicate test as written. */
  function MapStepAsWritten(env: Env, st: MapState, inst: InstanceMaterial): (r: MapState)
    ensures r.symbols.Keys == st.symbols.Keys
            || (inst.symbol.Some? && inst.symbol.value !in InheritedNames
                && r.symbols.Keys == st.symbols.Keys + {inst.symbol.value})
    ensures forall k | k in st.symbols :: k in r.symbols && r.symbols[k] == st.symbols[k]
    ensures |st.session.log| <= |r.session.log| <= |st.session.log| + 1
    ensures r.session.log[..|st.session.log|] == st.session.log
  {
    match inst.symbol
    case None => st.(session := Logged(st.session, Warning, NoSymbol))
    case Some(symbol) =>
      if ReadsAsBound(st.symbols, symbol) then
        st.(session := Logged(st.session, Error, DuplicateSymbol))
      else
        var r := ResolveOutcome(env, inst, st.session);
        MapState(st.symbols[symbol := r.material], r.session)
  }

  /** As written, a first instance with symbol "toString" binds nothing and is reported as a duplicate. */
  lemma InheritedSymbolRejected(env: Env, s: Session, link: Link)
    ensures var inst := InstanceMaterial(Some("toString"), link);
      var written := MapStepAsWritten(env, MapState(map[], s), inst);
      var intended := MapStep(env, MapState(map[], s), inst);
      && written.symbols == map[]
      && written.session.log == s.log + [Diagnostic(Error, DuplicateSymbol)]
      && intended.symbols.Keys == {"toString"}
  {
    assert "toString" in InheritedNames;
  }

  /** The two tests agree on every symbol that is not an inherited name. */
  lemma AsWrittenAgreesOffInheritedNames(env: Env, st: MapState, inst: InstanceMaterial)
    requires inst.symbol.Some? ==> inst.symbol.value !in InheritedNames
    ensures MapStepAsWritten(env, st, inst) == MapStep(env, st, inst)
  {
  }
}
