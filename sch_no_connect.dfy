/**
 * The no-connect marker of the schematic editor (SCH_NO_CONNECT), as its
 * inline members in eeschema/sch_no_connect.h define it: a position that
 * block operations move, a size with a lower bound, and the connectivity
 * predicates.
 */
module SchNoConnect {
  import opened Wrappers

  /** wxPoint, in internal units. */
  datatype Point = Point(x: int, y: int)

  /** `p += v` on wxPoint: component-wise addition. */
  function Translate(p: Point, v: Point): (r: Point)
    ensures r.x - p.x == v.x && r.y - p.y == v.y
  {
    Point(p.x + v.x, p.y + v.y)
  }

  /** Unary minus on wxPoint. */
  function Negate(v: Point): Point {
    Point(-v.x, -v.y)
  }

  /** Moving by `v` and then by `-v` restores the position; moves compose by adding vectors. */
  lemma TranslateInverse(p: Point, v: Point, w: Point)
    ensures Translate(Translate(p, v), Negate(v)) == p
    ensures Translate(Translate(p, v), w) == Translate(p, Translate(v, w))
  {
  }

  /** KICAD_T, limited to the item types the marker's predicates mention. */
  datatype KicadT = SchNoConnectT | SchLineT | SchComponentT | OtherT

  /** SCH_LAYER_ID, limited to the layer the marker's predicate mentions. */
  datatype SchLayerId = LayerWire | OtherLayer

  /** What an item exposes to CanConnect and ClassOf: its Type() and its GetLayer(). */
  datatype ItemView = ItemView(itemType: KicadT, layer: SchLayerId)

  /** ClassOf: the pointer is non-null and points at a no-connect marker. */
  function ClassOf(item: Option<ItemView>): (r: bool)
    ensures r <==> item.Some? && item.value.itemType == SchNoConnectT
  {
    match item
    case None => false
    case Some(it) => it.itemType == SchNoConnectT
  }

  class NoConnect {
    /** Position of the marker. */
    var pos: Point
    /** Size of the marker. */
    var size: int

    constructor (aSize: int, aPos: Point := Point(0, 0))
      ensures pos == aPos && size == aSize
    {
      pos := aPos;
      size := aSize;
    }

    function GetClass(): (name: string)
      ensures name == "SCH_NO_CONNECT"
    {
      "SCH_NO_CONNECT"
    }

    /**
     * The drawn size: the stored size, but never less than three default
     * line thicknesses. KiROUND of an integer product is that product.
     */
    function GetSize(defaultLineThickness: int): (r: int)
      reads this
      ensures r >= size && r >= 3 * defaultLineThickness
      ensures r == size || r == 3 * defaultLineThickness
    {
      if size >= 3 * defaultLineThickness then size else 3 * defaultLineThickness
    }

    method Move(aMoveVector: Point)
      modifies this
      ensures pos == Translate(old(pos), aMoveVector)
      ensures size == old(size)
    {
      pos := Translate(pos, aMoveVector);
    }

    function IsConnectable(): (r: bool)
      ensures r
    {
      true
    }

    /**
     * CanConnect: a marker accepts a wire (a line on the wire layer) and a
     * component, and nothing else.
     */
    function CanConnect(aItem: ItemView): (r: bool)
      ensures aItem.itemType == SchComponentT ==> r
      ensures aItem.itemType == SchLineT ==> (r <==> aItem.layer == LayerWire)
      ensures aItem.itemType != SchLineT && aItem.itemType != SchComponentT ==> !r
    {
      (aItem.itemType == SchLineT && aItem.layer == LayerWire) || aItem.itemType == SchComponentT
    }

    function GetPosition(): Point
      reads this
    {
      pos
    }

    method SetPosition(aPosition: Point)
      modifies this
      ensures GetPosition() == aPosition
      ensures size == old(size)
    {
      pos := aPosition;
    }
  }
}
