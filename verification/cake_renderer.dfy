/**
 * The base cake layer (`BaseModel`): a mutable object with defaults, one
 * setter per field, colour normalisation and a mesh-name to texture map.
 * Scene rendering (`getModel`, `ModelRenderer`) is not part of this model.
 */
module CakeRenderer {
  import opened Js

  /** The canonical colour shape `{primary, flavorName}`; either part may be
      undefined (None), and `flavorName` is often an explicit `null`. */
  datatype Color = Color(primary: Option<Json>, flavorName: Option<Json>)

  const White: Json := JStr("#ffffff")
  const Origin: Json := JArr([JNum(0.0), JNum(0.0), JNum(0.0)])

  /** The colour `setColor` stores for any input: a flavour object (one with a
      truthy `colors`), a direct colour object, or a string or falsy value. */
  function NormalizeColor(input: Option<Json>): (r: Color)
    ensures !Truthy(input) ==> r == Color(Some(White), Some(JNull))
    ensures Truthy(input) && !IsObject(input) ==> r == Color(input, Some(JNull))
    ensures r.flavorName.None? ==> IsObject(input) && Truthy(Get(input, "colors")) && Get(input, "name").None?
  {
    if Truthy(input) && IsObject(input) then
      var colors := Get(input, "colors");
      if Truthy(colors) then Color(Get(colors, "primary"), Get(input, "name"))
      else Color(Get(input, "primary"), Some(Or(Get(input, "flavorName"), JNull)))
    else Color(Some(Or(input, White)), Some(JNull))
  }

  /** The plain object a stored colour is when it is read back, as it is
      when a colour is passed on from one model to another. */
  function ColorObject(c: Color): (j: Json)
    ensures j.JObj? && "colors" !in j.fields
  {
    var withPrimary := if c.primary.Some? then map["primary" := c.primary.value] else map[];
    JObj(if c.flavorName.Some? then withPrimary["flavorName" := c.flavorName.value] else withPrimary)
  }

  /** A flavour object: primary colour from `colors.primary`, flavour name from `name`. */
  lemma FlavorObjectColor(fields: map<string, Json>, colors: map<string, Json>)
    requires "colors" in fields && fields["colors"] == JObj(colors)
    ensures NormalizeColor(Some(JObj(fields))).primary
            == (if "primary" in colors then Some(colors["primary"]) else None)
    ensures NormalizeColor(Some(JObj(fields))).flavorName
            == (if "name" in fields then Some(fields["name"]) else None)
  {
  }

  /** Any other object: its own `primary`, and `flavorName || null`. */
  lemma DirectObjectColor(fields: map<string, Json>)
    requires !Truthy(Get(Some(JObj(fields)), "colors"))
    ensures NormalizeColor(Some(JObj(fields))).primary == Get(Some(JObj(fields)), "primary")
    ensures var f := Get(Some(JObj(fields)), "flavorName");
            NormalizeColor(Some(JObj(fields))).flavorName == if Truthy(f) then f else Some(JNull)
  {
  }

  /** Anything that is not a truthy object goes through `color || '#ffffff'`:
      a truthy value (a non-empty string, a non-zero number, `true`) is kept
      as the primary colour, a falsy one (absent, null, false, 0, the empty
      string) becomes white; the flavour is null. */
  lemma StringOrFalsyColor(input: Option<Json>)
    requires !(Truthy(input) && IsObject(input))
    ensures NormalizeColor(input).flavorName == Some(JNull)
    ensures Truthy(input) ==> NormalizeColor(input).primary == input
    ensures !Truthy(input) ==> NormalizeColor(input).primary == Some(White)
  {
  }

  /** The output shape is canonical: feeding a stored colour back through
      `setColor` keeps its primary colour and a truthy flavour name; a falsy
      or undefined flavour name comes back as null. */
  lemma NormalizeColorCanonical(input: Option<Json>)
    ensures var c := NormalizeColor(input);
            NormalizeColor(Some(ColorObject(c)))
            == Color(c.primary, if Truthy(c.flavorName) then c.flavorName else Some(JNull))
  {
  }

  /** The value of `map.get(meshName)`: undefined when the mesh has no texture. */
  function LookupTexture(textureMap: map<string, Option<Json>>, meshName: string): (r: Option<Json>)
    ensures meshName in textureMap ==> r == textureMap[meshName]
    ensures meshName !in textureMap ==> r.None?
  {
    if meshName in textureMap then textureMap[meshName] else None
  }

  /** After `setTexture(m, t)`, `getTexture(m)` is `t` and every other mesh
      name reads as before. */
  lemma SetThenGetTexture(textureMap: map<string, Option<Json>>, m: string, t: Option<Json>, other: string)
    ensures LookupTexture(textureMap[m := t], m) == t
    ensures other != m ==> LookupTexture(textureMap[m := t], other) == LookupTexture(textureMap, other)
  {
  }

  /** Every field of a `BaseModel`, for frame conditions. */
  datatype BaseFields = BaseFields(
    path: Option<Json>,
    position: Option<Json>,
    color: Color,
    name: Option<Json>,
    targetedMeshName: Option<Json>,
    textureMap: map<string, Option<Json>>,
    price: Option<Json>,
    text: Option<Json>)

  /** What `getProperties` reports (its `model` renderer handle left out). */
  datatype BaseProps = BaseProps(
    name: Option<Json>,
    path: Option<Json>,
    color: Color,
    position: Option<Json>,
    targetedMeshName: Option<Json>,
    textureMap: map<string, Option<Json>>,
    price: Option<Json>)

  /** A `BaseModel` after a JSON round trip: plain data, the `Map` of textures
      turned into an empty object, undefined fields dropped. */
  datatype CakeRecord = CakeRecord(
    path: Option<Json>,
    position: Option<Json>,
    color: Color,
    name: Option<Json>,
    targetedMeshName: Option<Json>,
    textureMap: Json,
    price: Option<Json>,
    text: Option<Json>)

  class BaseModel {
    var path: Option<Json>
    var position: Option<Json>
    var color: Color
    var name: Option<Json>
    var targetedMeshName: Option<Json>
    var textureMap: map<string, Option<Json>>
    var price: Option<Json>
    var text: Option<Json>

    function Fields(): BaseFields
      reads this
    {
      BaseFields(path, position, color, name, targetedMeshName, textureMap, price, text)
    }

    /** `new BaseModel(path)`: the given path and the documented defaults. */
    constructor (path: Option<Json>)
      ensures Fields() == BaseFields(path, Some(Origin), Color(Some(White), Some(JNull)),
                                     Some(JStr("Layer1")), Some(JArr([])), map[], None, None)
    {
      this.path := path;
      position := Some(Origin);
      color := Color(Some(White), Some(JNull));
      name := Some(JStr("Layer1"));
      targetedMeshName := Some(JArr([]));
      textureMap := map[];
      price := None;
      text := None;
    }

    method SetName(name: Option<Json>)
      modifies this
      ensures Fields() == old(Fields()).(name := name)
    {
      this.name := name;
    }

    method SetPosition(position: Option<Json>)
      modifies this
      ensures Fields() == old(Fields()).(position := position)
    {
      this.position := position;
    }

    method SetColor(color: Option<Json>)
      modifies this
      ensures Fields() == old(Fields()).(color := NormalizeColor(color))
    {
      this.color := NormalizeColor(color);
    }

    method SetTargetedMeshName(targetedMeshName: Option<Json>)
      modifies this
      ensures Fields() == old(Fields()).(targetedMeshName := targetedMeshName)
    {
      this.targetedMeshName := targetedMeshName;
    }

    method SetPath(path: Option<Json>)
      modifies this
      ensures Fields() == old(Fields()).(path := path)
    {
      this.path := path;
    }

    method SetPrice(price: Option<Json>)
      modifies this
      ensures Fields() == old(Fields()).(price := price)
    {
      this.price := price;
    }

    method SetText(text: Option<Json>)
      modifies this
      ensures Fields() == old(Fields()).(text := text)
    {
      this.text := text;
    }

    method SetTexture(meshName: string, texture: Option<Json>)
      modifies this
      ensures Fields() == old(Fields()).(textureMap := old(textureMap)[meshName := texture])
      ensures GetTexture(meshName) == texture
    {
      textureMap := textureMap[meshName := texture];
    }

    function GetTexture(meshName: string): (r: Option<Json>)
      reads this
      ensures meshName in textureMap ==> r == textureMap[meshName]
      ensures meshName !in textureMap ==> r.None?
    {
      LookupTexture(textureMap, meshName)
    }

    /** `getProperties()`: the persisted fields, equal to the current ones. */
    function GetProperties(): (p: BaseProps)
      reads this
      ensures p.name == name && p.path == path && p.color == color && p.position == position
      ensures p.targetedMeshName == targetedMeshName && p.textureMap == textureMap && p.price == price
    {
      BaseProps(name, path, color, position, targetedMeshName, textureMap, price)
    }

    /** `JSON.parse(JSON.stringify(model))`: the own data fields survive, the
        texture `Map` has no enumerable entries and becomes `{}`. */
    function PlainRecord(): (r: CakeRecord)
      reads this
      ensures r.textureMap == JObj(map[])
      ensures r.path == path && r.position == position && r.color == color && r.name == name
      ensures r.targetedMeshName == targetedMeshName && r.price == price && r.text == text
    {
      CakeRecord(path, position, color, name, targetedMeshName, JObj(map[]), price, text)
    }
  }
}
