# Material resolution of the COLLADA to three.js converter, in Dafny

This project models the material stage of the COLLADA converter
(`collada/converter/material.ts`). It turns the `<instance_material>`
bindings of a geometry into converted material records. Each instance is
resolved along the chain instance → `<material>` → `<effect>` → technique.
A missing hop falls back to a synthetic default material. The stage keeps a
per-session registry of converted materials and writes warnings and errors
to the converter's log.

Layout:

- `wrappers.dfy`: `Option`, standing for the source's `null`.
- `elements.dfy`: the parsed elements the stage reads. These are the
  `<material>` shape of `collada/elements/material.ts` (`id`, `effect`
  link), effects, techniques with their diffuse/specular/bump channels,
  and `<instance_material>`. Link resolution (`fromLink`) is a lookup in
  the document's url table that also checks the element kind.
- `record.dfy`: the converted `Material` record. It also holds the default
  id, kept with its original spelling `"collada conterter default material"`.
- `context.dfy`: the converter context as a class. Its `materials` field
  is the registry, a `map` from id to material. Its `log` field is a
  `seq` of (level, kind) diagnostics. `FindMaterial`, `RegisterMaterial`
  and `Write` are its methods.
- `material.dfy`: the three operations as methods on the context
  (`CreateDefaultMaterial`, `CreateMaterial`, `GetMaterialMap`, whose
  loop keeps an invariant), plus the `ConverterMaterialMap` dictionary
  class. Each method is proved equal to a function of the session:
  `DefaultOutcome`, `ResolveOutcome` or `MapOutcome`.
- `properties.dfy`: lemmas about those functions.
- `finding.dfy`: the symbol-lookup discrepancy described under Findings.

The registry lookup at line 58 uses the default id, not the resolved
material's id. This is kept as written. Once the default material exists
in a session, every later successful resolution returns it
(`ResolvedToDefaultOnceRegistered`, `MapAfterDefault`).

Three more points where the model follows the code as written:

- `createDefaultMaterial` writes no diagnostic.
- `createMaterial` never looks up the registry under the material's own id.
- The constant-colour warning is written even when the default material is
  returned afterwards.

## Model

| member | source | states |
|---|---|---|
| `MaterialRecord.NewMaterial` | collada/converter/material.ts:15-20 | a new material carries the given id and no diffuse, specular or normal texture |
| `ConverterMaterial.DefaultOutcome` | collada/converter/material.ts:23-32 | afterwards the default id is registered and bound to the returned material, and every entry already present is unchanged. If the id was already there, the session is unchanged; otherwise exactly that one key is added, holding a textureless material. The log is unchanged |
| `ConverterMaterial.CreateDefaultMaterial` | collada/converter/material.ts:23-32 | the returned material and the new registry and log are those of `DefaultOutcome` on the old session |
| `MaterialProperties.DefaultIdempotent` | collada/converter/material.ts:23-32 | a second call returns the same material and leaves the session as the first call left it |
| `ConverterMaterial.ResolveOutcome` | collada/converter/material.ts:34-69 | writes at most one diagnostic, and that one is a resolution warning. No registry key is removed. The only key that can be added, and the only entry that can change, is the one under the returned material's id. If the default id is registered, the result is the registered default and the registry is unchanged on every path. In a well-keyed registry the result's id is registered, and with an overwriting registry the result is the entry under that id |
| `ConverterMaterial.CreateMaterial` | collada/converter/material.ts:34-69 | the returned material and the new registry and log are those of `ResolveOutcome` on the old session |
| `MaterialProperties.MissingMaterialFallsBack` | collada/converter/material.ts:36-40 | an unresolved material link writes exactly one MaterialNotFound warning and returns the default material, existing or newly registered |
| `MaterialProperties.MissingEffectFallsBack` | collada/converter/material.ts:42-52 | an unresolved effect link, or an effect without a technique, writes exactly one EffectNotFound warning and returns the default material |
| `MaterialProperties.ResolvedToDefaultOnceRegistered` | collada/converter/material.ts:54-59 | once the default id is registered, a resolution that reaches a technique returns the registered default whatever the material's id. It registers nothing, and its only diagnostic is the constant-colour warning, present exactly when some channel has a constant colour |
| `MaterialProperties.ResolvedToNewMaterial` | collada/converter/material.ts:54-66 | without a registered default, the result has the material's id and the textures created from diffuse, specular and bump (bump into normal). This holds even when that id is already registered, because no lookup by the material's own id is made. The registry afterwards is `Registered` of the result: with an overwriting registry, or an id not yet present, the result is the entry under its id; with `KeepExisting` and an id already present, the earlier entry stays. A constant colour adds exactly one warning and is no fallback |
| `ConverterMaterial.MapOutcome` | collada/converter/material.ts:71-92 | building a map never removes a registry key, only appends to the log, and keeps the registry well keyed |
| `ConverterMaterial.MapStep` | collada/converter/material.ts:78-89 | one iteration, with the duplicate test read as key presence: a new non-null symbol adds exactly that key; a null or already bound symbol leaves the map unchanged; existing bindings are never changed and the earlier log stays a prefix |
| `ConverterMaterial.GetMaterialMap` | collada/converter/material.ts:71-92 | returns a fresh dictionary whose bindings, together with the new registry and log, are those of `MapOutcome` on the old session |
| `ConverterMaterial.ConverterMaterialMap.constructor` | collada/converter/material.ts:1-7 | a new dictionary has no symbols |
| `MaterialProperties.MapKeysAreSymbols` | collada/converter/material.ts:75-91 | the keys of the map are exactly the distinct non-null symbols of the input |
| `MaterialProperties.MapOutcomeExtends` | collada/converter/material.ts:84-89 | a binding made for an instance is never changed or removed by later instances |
| `MaterialProperties.FirstWins` | collada/converter/material.ts:84-89 | a symbol is bound to what resolving its first carrier returned, in the session as it was then |
| `MaterialProperties.MapStepDiagnostics` | collada/converter/material.ts:78-89 | an instance with a null symbol adds no key and writes exactly one NoSymbol warning; one whose symbol is already bound adds no key and writes exactly one DuplicateSymbol error; nothing else changes on either. Any iteration writes no other error and keeps the earlier log as a prefix |
| `MaterialProperties.MapDiagnosticCounts` | collada/converter/material.ts:75-91 | over the whole input, NoSymbol warnings equal the number of null symbols and DuplicateSymbol errors equal the number of repeated symbols. No other error is written |
| `MaterialProperties.MapStepKeepsRegistered` | collada/converter/material.ts:89 | from a well-keyed registry, one iteration keeps every bound material's id a registry key |
| `MaterialProperties.BoundMaterialsRegistered` | collada/converter/material.ts:75-91 | starting from a well-keyed registry, every bound material's id is a registry key |
| `MaterialProperties.MapAfterDefault` | collada/converter/material.ts:58-59 | once the default id is registered, a whole map registers nothing and binds every symbol to the registered default |
| `MaterialProperties.DuplicateSymbolScenario` | collada/converter/material.ts:84-89 | for two instances sharing one symbol, the map holds only the first one's material and exactly one duplicate error is written |
| `SymbolLookupFinding.InheritedSymbolRejected` | collada/converter/material.ts:84-87 | as written, a first instance with symbol "toString" is reported as a duplicate and bound nowhere |
| `SymbolLookupFinding.MapStepAsWritten` | collada/converter/material.ts:78-89 | one iteration with line 84's `!= null` read as written: it adds at most the instance's symbol, and never an inherited name; existing bindings are never changed; it appends at most one diagnostic and keeps the earlier log as a prefix |
| `SymbolLookupFinding.AsWrittenAgreesOffInheritedNames` | collada/converter/material.ts:84-87 | the as-written test and the key-presence test agree on every symbol that is not an inherited name |

## Left out

- `ColladaMaterial.parse` (XML traversal) is not part of this model. Only the shape it produces (`id`, `effect` link) is kept.
- `ColladaMaterial.fromLink` and `ColladaEffect.fromLink` are not part of this model. They are modelled as a lookup in a url table that yields nothing for an absent link, a dangling url or an element of the wrong kind, and that writes no diagnostic. Every statement about what is written to the log concerns the diagnostics of this stage only.
- `ColladaConverterTexture.createTexture` is an abstract function of the channel. Its own diagnostics and any use it makes of the context are not modelled.
- `findMaterial` and `registerMaterial` of the context are not part of this model. Lookup is map membership. Registering files a material under its id. When that id is already present, the outcome is a parameter (`Overwrite` or `KeepExisting`), because the registry's code is not available.
- ConverterMaterial.ResolveOutcome: says the returned material is the entry under its id only for the overwriting registry. With `KeepExisting` it says only that the id is registered, since that is all either behaviour guarantees.
- Log message text is not modelled; each diagnostic keeps only its level and kind. The log sink's I/O is left out.
- JavaScript object identity is modelled as value equality of the stored record.
- A `null` technique channel and a `null` material id are not modelled. Channels are always present and ids are strings.
- ConverterMaterial.GetMaterialMap: the map and its fold (`MapStep`, `MapOutcome`) treat a symbol as taken when it is a key of the map being built. Line 84 as written reads `symbols[symbol] != null` on a plain object, which is also true for inherited names such as "toString". That reading is modelled only for one loop step, in `SymbolLookupFinding.MapStepAsWritten` (see Findings).
- Concurrency around the registry is not modelled. The code is synchronous and single-threaded.

## Findings

| source | as written | input that shows it | evidently intended | confidence | as-written member | corrected member |
|---|---|---|---|---|---|---|
| collada/converter/material.ts:84-87 | `result.symbols[symbol] != null` on a plain `{}` object is also true for names inherited from `Object.prototype` | one `<instance_material>` with symbol "toString": no binding, one "used multiple times" error | a symbol counts as taken only once this map has bound it, so the keys are exactly the distinct non-null symbols | high, not executed | `SymbolLookupFinding.InheritedSymbolRejected` | `MaterialProperties.MapKeysAreSymbols` |
