/**
 * A decorative element (`ElementModel`). Its own source file is not part of
 * this model: the element is kept abstract, as an object whose setters each
 * assign their own field, which is all the design state engine relies on.
 * Its constructor is taken to set only the path; its own defaults for the
 * other fields are unknown and start absent here.
 */
module Elements {
  import opened Js

  /** What an element's `getProperties()` reports: the fields that
      `rebuildFromHistory` reads back from a snapshot. */
  datatype ElementProps = ElementProps(
    name: Option<Json>,
    position: Option<Json>,
    color: Option<Json>,
    targetedMeshName: Option<Json>,
    price: Option<Json>,
    scale: Option<Json>)

  /** Every field of an element, for frame conditions. */
  datatype ElementFields = ElementFields(
    path: Option<Json>,
    uniqueId: string,
    props: ElementProps,
    textures: Option<Json>)

  class ElementModel {
    var path: Option<Json>
    var uniqueId: string
    var name: Option<Json>
    var position: Option<Json>
    var color: Option<Json>
    var targetedMeshName: Option<Json>
    var price: Option<Json>
    var scale: Option<Json>
    var textures: Option<Json>

    function Fields(): ElementFields
      reads this
    {
      ElementFields(path, uniqueId, GetProperties(), textures)
    }

    /** `getProperties()` */
    function GetProperties(): (p: ElementProps)
      reads this
      ensures p.name == name && p.position == position && p.color == color
      ensures p.targetedMeshName == targetedMeshName && p.price == price && p.scale == scale
    {
      ElementProps(name, position, color, targetedMeshName, price, scale)
    }

    /** `new ElementModel(path)`, with no identifier assigned yet. */
    constructor (path: Option<Json>)
      ensures Fields() == ElementFields(path, "", ElementProps(None, None, None, None, None, None), None)
    {
      this.path := path;
      uniqueId := "";
      name, position, color, targetedMeshName, price, scale := None, None, None, None, None, None;
      textures := None;
    }

    method SetName(name: Option<Json>)
      modifies this
      ensures Fields() == old(Fields()).(props := old(GetProperties()).(name := name))
    {
      this.name := name;
    }

    method SetPosition(position: Option<Json>)
      modifies this
      ensures Fields() == old(Fields()).(props := old(GetProperties()).(position := position))
    {
      this.position := position;
    }

    method SetColor(color: Option<Json>)
      modifies this
      ensures Fields() == old(Fields()).(props := old(GetProperties()).(color := color))
    {
      this.color := color;
    }

    method SetTargetedMeshName(targetedMeshName: Option<Json>)
      modifies this
      ensures Fields() == old(Fields()).(props := old(GetProperties()).(targetedMeshName := targetedMeshName))
    {
      this.targetedMeshName := targetedMeshName;
    }

    method SetPrice(price: Option<Json>)
      modifies this
      ensures Fields() == old(Fields()).(props := old(GetProperties()).(price := price))
    {
      this.price := price;
    }

    method SetScale(scale: Option<Json>)
      modifies this
      ensures Fields() == old(Fields()).(props := old(GetProperties()).(scale := scale))
    {
      this.scale := scale;
    }

    method SetTextures(textures: Option<Json>)
      modifies this
      ensures Fields() == old(Fields()).(textures := textures)
    {
      this.textures := textures;
    }
  }
}
