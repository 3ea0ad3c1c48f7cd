/** The converted material record handed to the scene converter. */
module MaterialRecord {
  import opened Wrappers

  /** A converted texture; what it holds is decided by the texture converter. */
  datatype Texture = Texture(image: string)

  /** A converted material: its id and three texture slots, each possibly absent. */
  datatype Material = Material(id: string, diffuse: Option<Texture>, specular: Option<Texture>, normal: Option<Texture>)

  /** The id of the synthetic default material, spelled exactly as the converter spells it. */
  const DefaultMaterialId: string := "collada conterter default material"

  predicate Textureless(m: Material)
  {
    m.diffuse.None? && m.specular.None? && m.normal.None?
  }

  /** The record a freshly constructed material holds. */
  function NewMaterial(id: string): (m: Material)
    ensures m.id == id && Textureless(m)
  {
    Material(id, None, None, None)
  }
}
