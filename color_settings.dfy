/**
 * A colour theme (COLOR_SETTINGS) and the parameter object that binds one
 * slot of a layer-id -> colour map to a path of a settings document
 * (COLOR_MAP_PARAM), as declared in include/settings/color_settings.h.
 *
 * The settings document of JSON_SETTINGS is modelled as a map from JSON
 * paths to colours; the layer map that COLOR_MAP_PARAM reaches through its
 * `m_map` pointer is a `ColorMap` object, so that several parameters can
 * share one map exactly as they share one `std::unordered_map`.
 */
module ColorSettings {
  import opened Wrappers

  /** COLOR4D. Its channels are floating point; the model only compares colours for equality. */
  type Color(==, 0)

  /** The colour a default-constructed COLOR4D holds. */
  const Blank: Color

  /** A settings document, seen as JSON path -> colour. */
  type Document = map<string, Color>

  /** The contents of a `std::unordered_map<int, COLOR4D>`. */
  type LayerColors = map<int, Color>

  /** COLOR_CONTEXT: which of the two board colour sets a lookup uses. */
  datatype ColorContext = Pcb | Footprint

  /** What JSON_SETTINGS::Get<COLOR4D> answers for `path`. */
  function Lookup(doc: Document, path: string): Option<Color> {
    if path in doc then Some(doc[path]) else None
  }

  /** The value of the map slot `key` as `operator[]` reads it: a missing key reads as a default-constructed colour. */
  function SlotValue(m: LayerColors, key: int): Color {
    if key in m then m[key] else Blank
  }

  /**
   * The state a COLOR_MAP_PARAM is constructed with: its JSON path, the map
   * key it binds, its compiled-in default and the read-only flag of PARAM_BASE.
   */
  datatype Binding = Binding(path: string, key: int, defaultColor: Color, readOnly: bool)

  /** A settings document together with a layer map: what Store leaves behind. */
  datatype Stored = Stored(doc: Document, colors: LayerColors)

  // ---------------------------------------------------------------------------
  // One parameter
  // ---------------------------------------------------------------------------

  /** The colour Load takes: the document's value at the path when there is one, the default otherwise. */
  function LoadedValue(b: Binding, doc: Document): (c: Color)
    ensures b.path in doc ==> c == doc[b.path]
    ensures b.path !in doc ==> c == b.defaultColor
  {
    Lookup(doc, b.path).GetOr(b.defaultColor)
  }

  /** The layer map after COLOR_MAP_PARAM::Load. */
  function LoadSlot(b: Binding, doc: Document, m: LayerColors): (r: LayerColors)
    ensures b.readOnly ==> r == m
    ensures !b.readOnly ==> r.Keys == m.Keys + {b.key}
    ensures !b.readOnly && b.path in doc ==> r[b.key] == doc[b.path]
    ensures !b.readOnly && b.path !in doc ==> r[b.key] == b.defaultColor
    ensures forall k :: k in m && k != b.key ==> k in r && r[k] == m[k]
  {
    if b.readOnly then m else m[b.key := LoadedValue(b, doc)]
  }

  /**
   * The document and layer map after COLOR_MAP_PARAM::Store. There is no
   * read-only test, and an absent key is inserted with a default-constructed
   * colour before its value is written to the document.
   */
  function StoreSlot(b: Binding, doc: Document, m: LayerColors): (r: Stored)
    ensures r.colors.Keys == m.Keys + {b.key}
    ensures forall k :: k in m ==> r.colors[k] == m[k]
    ensures b.key !in m ==> r.colors[b.key] == Blank
    ensures r.doc.Keys == doc.Keys + {b.path}
    ensures r.doc[b.path] == r.colors[b.key]
    ensures forall p :: p in doc && p != b.path ==> r.doc[p] == doc[p]
  {
    var colors := m[b.key := SlotValue(m, b.key)];
    Stored(doc[b.path := colors[b.key]], colors)
  }

  /** The layer map after COLOR_MAP_PARAM::SetDefault. */
  function SetDefaultSlot(b: Binding, m: LayerColors): (r: LayerColors)
    ensures r.Keys == m.Keys + {b.key}
    ensures r[b.key] == b.defaultColor
    ensures forall k :: k in m && k != b.key ==> r[k] == m[k]
  {
    m[b.key := b.defaultColor]
  }

  /** Store writes the slot to the path, whether or not the parameter is read-only. */
  lemma StoreIgnoresReadOnly(b: Binding, doc: Document, m: LayerColors)
    ensures StoreSlot(b, doc, m) == StoreSlot(b.(readOnly := !b.readOnly), doc, m)
    ensures StoreSlot(b, doc, m).doc[b.path] == SlotValue(m, b.key)
  {
  }

  /**
   * A Load that follows a Store on the same document reproduces the map slot,
   * and on a key that was present the whole map, read-only or not.
   */
  lemma StoreThenLoad(b: Binding, doc: Document, m: LayerColors)
    ensures var s := StoreSlot(b, doc, m);
      LoadSlot(b, s.doc, s.colors) == s.colors
    ensures b.key in m ==> var s := StoreSlot(b, doc, m);
      s.colors == m && LoadSlot(b, s.doc, s.colors) == m
  {
  }

  /** SetDefault is idempotent, and a Load on a document without the path has the same effect. */
  lemma SetDefaultIdempotent(b: Binding, doc: Document, m: LayerColors)
    ensures SetDefaultSlot(b, SetDefaultSlot(b, m)) == SetDefaultSlot(b, m)
    ensures !b.readOnly && b.path !in doc ==> LoadSlot(b, doc, m) == SetDefaultSlot(b, m)
  {
  }

  // ---------------------------------------------------------------------------
  // A table of parameters sharing one map
  // ---------------------------------------------------------------------------

  /** Loading each binding of `bs` in turn, as a settings object does with its parameter list. */
  function LoadAll(bs: seq<Binding>, doc: Document, m: LayerColors): LayerColors
    decreases |bs|
  {
    if bs == [] then m else LoadAll(bs[1..], doc, LoadSlot(bs[0], doc, m))
  }

  /** Storing each binding of `bs` in turn. */
  function StoreAll(bs: seq<Binding>, doc: Document, m: LayerColors): Stored
    decreases |bs|
  {
    if bs == [] then Stored(doc, m)
    else
      var s := StoreSlot(bs[0], doc, m);
      StoreAll(bs[1..], s.doc, s.colors)
  }

  ghost predicate DistinctKeys(bs: seq<Binding>) {
    forall i, j :: 0 <= i < j < |bs| ==> bs[i].key != bs[j].key
  }

  ghost predicate DistinctPaths(bs: seq<Binding>) {
    forall i, j :: 0 <= i < j < |bs| ==> bs[i].path != bs[j].path
  }

  /** The keys that the bindings of `bs` which are not read-only write on Load. */
  ghost function LoadedKeys(bs: seq<Binding>): set<int> {
    set i | 0 <= i < |bs| && !bs[i].readOnly :: bs[i].key
  }

  ghost function BoundKeys(bs: seq<Binding>): set<int> {
    set i | 0 <= i < |bs| :: bs[i].key
  }

  ghost function BoundPaths(bs: seq<Binding>): set<string> {
    set i | 0 <= i < |bs| :: bs[i].path
  }

  lemma TailDistinct(bs: seq<Binding>)
    requires bs != []
    ensures DistinctKeys(bs) ==> DistinctKeys(bs[1..])
    ensures DistinctPaths(bs) ==> DistinctPaths(bs[1..])
    ensures DistinctKeys(bs) ==> bs[0].key !in BoundKeys(bs[1..])
    ensures DistinctPaths(bs) ==> bs[0].path !in BoundPaths(bs[1..])
  {
    var tail := bs[1..];
    forall i | 0 <= i < |tail| ensures tail[i] == bs[i + 1] { }
  }

  lemma TailSets(bs: seq<Binding>)
    requires bs != []
    ensures LoadedKeys(bs) == LoadedKeys(bs[1..]) + (if bs[0].readOnly then {} else {bs[0].key})
    ensures LoadedKeys(bs[1..]) <= BoundKeys(bs[1..])
    ensures BoundKeys(bs) == BoundKeys(bs[1..]) + {bs[0].key}
    ensures BoundPaths(bs) == BoundPaths(bs[1..]) + {bs[0].path}
  {
    var tail := bs[1..];
    forall i | 0 <= i < |tail| ensures tail[i] == bs[i + 1] { }
    forall k | k in LoadedKeys(bs)
      ensures k in LoadedKeys(tail) + (if bs[0].readOnly then {} else {bs[0].key})
    {
      var i :| 0 <= i < |bs| && !bs[i].readOnly && bs[i].key == k;
      if i > 0 { assert tail[i - 1] == bs[i]; }
    }
    forall k | k in BoundKeys(bs) ensures k in BoundKeys(tail) + {bs[0].key} {
      var i :| 0 <= i < |bs| && bs[i].key == k;
      if i > 0 { assert tail[i - 1] == bs[i]; }
    }
    forall p | p in BoundPaths(bs) ensures p in BoundPaths(tail) + {bs[0].path} {
      var i :| 0 <= i < |bs| && bs[i].path == p;
      if i > 0 { assert tail[i - 1] == bs[i]; }
    }
  }

  /**
   * After loading a table of bindings with distinct keys, every slot that a
   * non-read-only binding owns holds the document's value or its default,
   * and every other entry of the map is as it was.
   */
  lemma {:induction false} LoadAllResult(bs: seq<Binding>, doc: Document, m: LayerColors)
    requires DistinctKeys(bs)
    ensures var r := LoadAll(bs, doc, m);
      && r.Keys == m.Keys + LoadedKeys(bs)
      && (forall i :: 0 <= i < |bs| && !bs[i].readOnly ==> r[bs[i].key] == LoadedValue(bs[i], doc))
      && (forall k :: k in m && k !in LoadedKeys(bs) ==> r[k] == m[k])
    decreases |bs|
  {
    if bs != [] {
      var m1 := LoadSlot(bs[0], doc, m);
      var tail := bs[1..];
      TailDistinct(bs);
      TailSets(bs);
      LoadAllResult(tail, doc, m1);
      var r := LoadAll(tail, doc, m1);
      forall i | 0 <= i < |bs| && !bs[i].readOnly ensures r[bs[i].key] == LoadedValue(bs[i], doc) {
        if i > 0 { assert tail[i - 1] == bs[i]; }
      }
    }
  }

  /**
   * Storing a table of bindings adds every bound key that was missing and
   * changes no colour already in the map.
   */
  lemma {:induction false} StoreAllColors(bs: seq<Binding>, doc: Document, m: LayerColors)
    ensures var s := StoreAll(bs, doc, m);
      && s.colors.Keys == m.Keys + BoundKeys(bs)
      && (forall k :: k in m ==> s.colors[k] == m[k])
    decreases |bs|
  {
    if bs != [] {
      var s1 := StoreSlot(bs[0], doc, m);
      TailSets(bs);
      StoreAllColors(bs[1..], s1.doc, s1.colors);
    }
  }

  /**
   * Storing a table of bindings adds every bound path to the document and
   * leaves the paths no binding names untouched.
   */
  lemma {:induction false} StoreAllDocFrame(bs: seq<Binding>, doc: Document, m: LayerColors)
    ensures var s := StoreAll(bs, doc, m);
      && s.doc.Keys == doc.Keys + BoundPaths(bs)
      && (forall p :: p in doc && p !in BoundPaths(bs) ==> s.doc[p] == doc[p])
    decreases |bs|
  {
    if bs != [] {
      var s1 := StoreSlot(bs[0], doc, m);
      TailSets(bs);
      StoreAllDocFrame(bs[1..], s1.doc, s1.colors);
    }
  }

  /**
   * After storing a table of bindings with distinct paths, every bound path
   * holds the colour of its slot.
   */
  lemma {:induction false} StoreAllAgrees(bs: seq<Binding>, doc: Document, m: LayerColors)
    requires DistinctPaths(bs)
    ensures var s := StoreAll(bs, doc, m);
      forall i :: 0 <= i < |bs| ==>
        bs[i].key in s.colors && bs[i].path in s.doc && s.doc[bs[i].path] == s.colors[bs[i].key]
    decreases |bs|
  {
    if bs != [] {
      var s1 := StoreSlot(bs[0], doc, m);
      var tail := bs[1..];
      TailDistinct(bs);
      StoreAllAgrees(tail, s1.doc, s1.colors);
      StoreAllColors(tail, s1.doc, s1.colors);
      StoreAllDocFrame(tail, s1.doc, s1.colors);
      var s := StoreAll(tail, s1.doc, s1.colors);
      assert s.doc[bs[0].path] == s1.doc[bs[0].path];
      assert s.colors[bs[0].key] == s1.colors[bs[0].key];
      forall i | 0 < i < |bs|
        ensures bs[i].key in s.colors && bs[i].path in s.doc && s.doc[bs[i].path] == s.colors[bs[i].key]
      {
        assert tail[i - 1] == bs[i];
      }
    }
  }

  /**
   * Loading a table of bindings leaves the map as it is when every
   * non-read-only binding finds at its path the colour its slot already holds.
   */
  lemma {:induction false} LoadAllFixedPoint(bs: seq<Binding>, doc: Document, m: LayerColors)
    requires forall i :: 0 <= i < |bs| && !bs[i].readOnly ==>
      bs[i].key in m && bs[i].path in doc && doc[bs[i].path] == m[bs[i].key]
    ensures LoadAll(bs, doc, m) == m
    decreases |bs|
  {
    if bs != [] {
      assert LoadSlot(bs[0], doc, m) == m;
      var tail := bs[1..];
      forall i | 0 <= i < |tail| && !tail[i].readOnly
        ensures tail[i].key in m && tail[i].path in doc && doc[tail[i].path] == m[tail[i].key]
      {
        assert tail[i] == bs[i + 1];
      }
      LoadAllFixedPoint(tail, doc, m);
    }
  }

  /**
   * The round trip of a whole theme: storing every binding and then loading
   * every binding from the same document reproduces the stored map, provided
   * no two bindings share a path.
   */
  lemma StoreAllThenLoadAll(bs: seq<Binding>, doc: Document, m: LayerColors)
    requires DistinctPaths(bs)
    ensures var s := StoreAll(bs, doc, m);
      LoadAll(bs, s.doc, s.colors) == s.colors
    ensures BoundKeys(bs) <= m.Keys ==> var s := StoreAll(bs, doc, m);
      s.colors == m && LoadAll(bs, s.doc, s.colors) == m
  {
    StoreAllAgrees(bs, doc, m);
    StoreAllColors(bs, doc, m);
    var s := StoreAll(bs, doc, m);
    LoadAllFixedPoint(bs, s.doc, s.colors);
  }

  // ---------------------------------------------------------------------------
  // Objects
  // ---------------------------------------------------------------------------

  /** The settings document of a JSON_SETTINGS object, with its Get and Set. */
  class JsonSettings {
    var doc: Document

    constructor (initial: Document)
      ensures doc == initial
    {
      doc := initial;
    }

    /** Get<COLOR4D>: the colour at `path`, or nothing when the path is absent. */
    function Get(path: string): (r: Option<Color>)
      reads this
      ensures r.Some? <==> path in doc
      ensures r.Some? ==> r.value == doc[path]
    {
      Lookup(doc, path)
    }

    /**
     * Set<COLOR4D>: the assumed behaviour of the document. A following Get of
     * the same path returns the value; every other path is unchanged.
     */
    method Set(path: string, value: Color)
      modifies this
      ensures doc == old(doc)[path := value]
      ensures Get(path) == Some(value)
      ensures forall p :: p != path ==> Lookup(doc, p) == Lookup(old(doc), p)
    {
      doc := doc[path := value];
    }
  }

  /** A `std::unordered_map<int, COLOR4D>` that parameters reach by pointer. */
  class ColorMap {
    var colors: LayerColors

    constructor (initial: LayerColors)
      ensures colors == initial
    {
      colors := initial;
    }
  }

  /** COLOR_MAP_PARAM: one slot of `target`, bound to `path` of a settings document. */
  class ColorMapParam {
    const path: string
    const readOnly: bool
    const key: int
    const defaultColor: Color
    const target: ColorMap

    constructor (jsonPath: string, mapKey: int, aDefault: Color, aMap: ColorMap, aReadOnly: bool := false)
      ensures path == jsonPath && key == mapKey && defaultColor == aDefault
      ensures target == aMap && readOnly == aReadOnly
      ensures GetKey() == mapKey && GetDefault() == aDefault
    {
      path := jsonPath;
      readOnly := aReadOnly;
      key := mapKey;
      defaultColor := aDefault;
      target := aMap;
    }

    /** The constructor's arguments, as a value. */
    function Spec(): Binding {
      Binding(path, key, defaultColor, readOnly)
    }

    function GetKey(): int {
      key
    }

    function GetDefault(): Color {
      defaultColor
    }

    method Load(settings: JsonSettings)
      modifies target
      ensures target.colors == LoadSlot(Spec(), settings.doc, old(target.colors))
    {
      if readOnly {
        return;
      }
      var val := defaultColor;
      var optval := settings.Get(path);
      if optval.Some? {
        val := optval.value;
      }
      target.colors := target.colors[key := val];
    }

    method Store(settings: JsonSettings)
      modifies settings, target
      ensures Stored(settings.doc, target.colors) == StoreSlot(Spec(), old(settings.doc), old(target.colors))
    {
      // operator[] inserts a default-constructed colour for an absent key
      if key !in target.colors {
        target.colors := target.colors[key := Blank];
      }
      settings.Set(path, target.colors[key]);
    }

    method SetDefault()
      modifies target
      ensures target.colors == SetDefaultSlot(Spec(), old(target.colors))
    {
      target.colors := target.colors[key := defaultColor];
    }
  }

  /** COLOR_SETTINGS: a colour theme. Only its inline accessors are modelled. */
  class ColorSettings {
    var palette: seq<Color>
    var displayName: string
    var overrideSchItemColors: bool
    const colors: ColorMap
    const defaultColors: ColorMap
    var colorContext: ColorContext

    constructor (name: string, overrideFlag: bool, context: ColorContext)
      ensures displayName == name && overrideSchItemColors == overrideFlag && colorContext == context
      ensures palette == [] && fresh(colors) && fresh(defaultColors)
      ensures colors.colors == map[] && defaultColors.colors == map[]
    {
      palette := [];
      displayName := name;
      overrideSchItemColors := overrideFlag;
      colorContext := context;
      colors := new ColorMap(map[]);
      defaultColors := new ColorMap(map[]);
    }

    method SetColorContext(aContext: ColorContext := Pcb)
      modifies this
      ensures colorContext == aContext
      ensures displayName == old(displayName) && overrideSchItemColors == old(overrideSchItemColors)
      ensures palette == old(palette)
    {
      colorContext := aContext;
    }

    function GetName(): string
      reads this
    {
      displayName
    }

    method SetName(aName: string)
      modifies this
      ensures GetName() == aName
      ensures overrideSchItemColors == old(overrideSchItemColors) && colorContext == old(colorContext)
      ensures palette == old(palette)
    {
      displayName := aName;
    }

    function GetOverrideSchItemColors(): bool
      reads this
    {
      overrideSchItemColors
    }

    method SetOverrideSchItemColors(aFlag: bool)
      modifies this
      ensures GetOverrideSchItemColors() == aFlag
      ensures displayName == old(displayName) && colorContext == old(colorContext)
      ensures palette == old(palette)
    {
      overrideSchItemColors := aFlag;
    }
  }
}
