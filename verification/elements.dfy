/**
 * The parsed COLLADA elements the material stage reads. The parser that
 * builds them is not part of this model; only their shape is kept, and
 * link resolution is a lookup in the document's url table.
 */
module Elements {
  import opened Wrappers

  /** The address of an element in the parsed document. */
  type Url = string

  /** A link attribute; one that was never set is `None`. */
  type Link = Option<Url>

  /** The components of a constant colour. */
  type Color = seq<real>

  /** One shading channel of a technique: it may carry a constant colour and a texture sampler. */
  datatype ColorOrTexture = ColorOrTexture(color: Option<Color>, textureSampler: Link)

  /** The channels of an effect technique that the converter reads. */
  datatype Technique = Technique(diffuse: ColorOrTexture, specular: ColorOrTexture, bump: ColorOrTexture)

  /** A parsed `<material>`: its id and the link of its `<instance_effect>`. */
  datatype MaterialDef = MaterialDef(id: string, effect: Link)

  /** A parsed `<effect>`, whose technique may be missing. */
  datatype EffectDef = EffectDef(technique: Option<Technique>)

  /** What a url of the document names. */
  datatype Element =
    | MaterialNode(material: MaterialDef)
    | EffectNode(effect: EffectDef)
    | OtherNode

  type Document = map<Url, Element>

  /** An `<instance_material>` of a geometry binding: its symbol (possibly absent) and the material it names. */
  datatype InstanceMaterial = InstanceMaterial(symbol: Option<string>, material: Link)

  /** The material a link names, or `None` when the link is absent, dangling or names another kind of element. */
  function MaterialFromLink(link: Link, doc: Document): Option<MaterialDef>
  {
    if link.Some? && link.value in doc && doc[link.value].MaterialNode?
    then Some(doc[link.value].material)
    else None
  }

  /** The effect a link names, or `None` when the link is absent, dangling or names another kind of element. */
  function EffectFromLink(link: Link, doc: Document): Option<EffectDef>
  {
    if link.Some? && link.value in doc && doc[link.value].EffectNode?
    then Some(doc[link.value].effect)
    else None
  }
}
