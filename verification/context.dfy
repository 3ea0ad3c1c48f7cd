/**
 * The part of the converter context the material stage uses: the material
 * registry, the diagnostic log, and the collaborators it calls through the
 * context (link resolution, texture creation).
 */
module ConverterContext {
  import opened Wrappers
  import opened Elements
  import opened MaterialRecord

  datatype Level = Warning | Error

  /** Which diagnostic was written; the message text itself is not modelled. */
  datatype Kind = MaterialNotFound | EffectNotFound | ConstantColors | NoSymbol | DuplicateSymbol

  datatype Diagnostic = Diagnostic(level: Level, kind: Kind)

  /** Converted materials by id. */
  type Registry = map<string, Material>

  /** The registry and the log: the state one conversion session carries. */
  datatype Session = Session(registry: Registry, log: seq<Diagnostic>)

  /**
   * What registering an id that is already present does. The registry's own
   * code is not part of this model, so both behaviours are kept open.
   */
  datatype DuplicateIdPolicy = Overwrite | KeepExisting

  /** The collaborators reached through the context. */
  datatype Env = Env(
    document: Document,
    createTexture: ColorOrTexture -> Option<Texture>,
    onDuplicateId: DuplicateIdPolicy)

  /** Every entry is filed under its own id. */
  ghost predicate WellKeyed(reg: Registry)
  {
    forall id | id in reg :: reg[id].id == id
  }

  /** The registry after `registerMaterial(m)`. */
  function Registered(reg: Registry, m: Material, policy: DuplicateIdPolicy): (r: Registry)
    ensures r.Keys == reg.Keys + {m.id}
    ensures forall id | id in reg && id != m.id :: r[id] == reg[id]
    ensures m.id !in reg || policy == Overwrite ==> r[m.id] == m
    ensures WellKeyed(reg) ==> WellKeyed(r)
  {
    if m.id in reg && policy == KeepExisting then reg else reg[m.id := m]
  }

  /** The session after one line is written to the log. */
  function Logged(s: Session, level: Level, kind: Kind): Session
  {
    s.(log := s.log + [Diagnostic(level, kind)])
  }

  class Context {
    const env: Env
    var materials: Registry
    var log: seq<Diagnostic>

    /** The registry files every material under its own id. */
    ghost predicate Valid()
      reads this
    {
      WellKeyed(materials)
    }

    /** A context at the start of a conversion: nothing registered, nothing logged. */
    constructor (env: Env)
      ensures Valid()
      ensures this.env == env && materials == map[] && log == []
    {
      this.env := env;
      materials := map[];
      log := [];
    }

    function State(): Session
      reads this
    {
      Session(materials, log)
    }

    /** `findMaterial`: the material registered under `id`, if any. */
    method FindMaterial(id: string) returns (r: Option<Material>)
      ensures r.Some? <==> id in materials
      ensures r.Some? ==> r.value == materials[id]
    {
      r := if id in materials then Some(materials[id]) else None;
    }

    /** `registerMaterial`: files `m` under its id; the log is untouched. */
    method RegisterMaterial(m: Material)
      modifies this
      ensures State() == old(State()).(registry := Registered(old(materials), m, env.onDuplicateId))
    {
      materials := Registered(materials, m, env.onDuplicateId);
    }

    /** `log.write`: appends one diagnostic; the registry is untouched. */
    method Write(level: Level, kind: Kind)
      modifies this
      ensures State() == Logged(old(State()), level, kind)
    {
      log := log + [Diagnostic(level, kind)];
    }
  }
}
