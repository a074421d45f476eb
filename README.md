# KiCad colour map parameter and no-connect marker

This project models two small parts of KiCad:

- **`COLOR_MAP_PARAM`** (`include/settings/color_settings.h`). It binds one slot of a layer-id → colour map to a JSON path of a settings document. `Load` respects the read-only flag. When the flag is clear, it takes the document's colour at the path, or the compiled-in default when the path is absent. `Store` writes the slot back to the path. `SetDefault` resets the slot to its default. The inline accessors of `COLOR_SETTINGS` are modelled too: name, override flag and colour context.
- **`SCH_NO_CONNECT`** (`eeschema/sch_no_connect.h`). This is the schematic's no-connect marker. The model covers its position (`Move`, `SetPosition`, `GetPosition`), its drawn size (`GetSize`), and the connectivity predicates `IsConnectable`, `CanConnect` and `ClassOf`.

How things are represented:

- Colours (`COLOR4D`) are an opaque type, compared only for equality.
- `Blank` is the colour a default-constructed `COLOR4D` holds. The model does not fix its channels.
- The `std::unordered_map<int, COLOR4D>` that a parameter reaches through `m_map` is a `ColorMap` object. The pointer type lets several parameters be given the same map, for example `&m_colors`.
- The settings document is a `JsonSettings` object holding a `map<string, Color>`.
- Pure functions give the meaning of each operation. Each method's `ensures` ties the new state to them:
  - `LoadSlot`, `StoreSlot` and `SetDefaultSlot` for one parameter.
  - `LoadAll` and `StoreAll` for a table of parameters loaded or stored in turn.

Store treats the map as `operator[]` does. If the key is absent, it first inserts a default-constructed colour; then it writes the slot's colour to the document. `COLOR_MAP_PARAM::Store` (color_settings.h:134-137) has no read-only test, so a read-only parameter is still written: `StoreIgnoresReadOnly`.

The behaviour of `JSON_SETTINGS::Get` and `Set` is an assumption of this model; that class is not part of it. The assumption is stated as the contract of `JsonSettings.Set`: a following `Get` of the same path returns the value just set, and every other path is unchanged.

## Model

| member | source | states |
|---|---|---|
| `ColorSettings.LoadedValue` | include/settings/color_settings.h:126-129 | Load's colour is the document's value when the path is present, else the constructor's default |
| `ColorSettings.LoadSlot` | include/settings/color_settings.h:121-132 | read-only: map unchanged; otherwise `map[key]` is the document value (path present) or the default (path absent), the key set gains only `key`, every other entry is unchanged |
| `ColorSettings.StoreSlot` | include/settings/color_settings.h:134-137 | the document's value at the path becomes the slot's colour; an absent key is inserted with the default-constructed colour; existing map entries and all other paths are unchanged |
| `ColorSettings.SetDefaultSlot` | include/settings/color_settings.h:149-152 | `map[key]` becomes the default; only that key is added or changed |
| `ColorSettings.StoreIgnoresReadOnly` | include/settings/color_settings.h:134-137 | Store's effect does not depend on the read-only flag and always writes the slot's value to the path |
| `ColorSettings.StoreThenLoad` | include/settings/color_settings.h:121-137 | Load after Store on the same document reproduces the map (the whole old map when the key was present), read-only or not |
| `ColorSettings.SetDefaultIdempotent` | include/settings/color_settings.h:149-152 | SetDefault twice equals SetDefault once; a non-read-only Load from a document lacking the path has the same effect as SetDefault |
| `ColorSettings.LoadAllResult` | include/settings/color_settings.h:115-132 | loading parameters with distinct keys that share one map: each non-read-only slot holds its document value or default, the key set grows by exactly those slots, all other entries keep their colours |
| `ColorSettings.StoreAllColors` | include/settings/color_settings.h:134-137 | storing a table of parameters only adds missing bound keys and changes no existing colour |
| `ColorSettings.StoreAllDocFrame` | include/settings/color_settings.h:134-137 | storing a table adds exactly the bound paths to the document; paths no parameter names are unchanged |
| `ColorSettings.StoreAllAgrees` | include/settings/color_settings.h:134-137 | after storing a table with distinct paths, each bound path holds the colour of its parameter's slot |
| `ColorSettings.LoadAllFixedPoint` | include/settings/color_settings.h:121-132 | a table Load leaves the map unchanged when every non-read-only parameter finds its slot's own colour at its path |
| `ColorSettings.StoreAllThenLoadAll` | include/settings/color_settings.h:115-137 | round trip of a whole table, for parameters with distinct paths: store all then load all reproduces the stored map, and the original map when every bound key was present |
| `ColorSettings.JsonSettings.Get` | include/settings/color_settings.h:128 | Get answers a colour exactly when the path is in the document, and that colour is the document's |
| `ColorSettings.JsonSettings.Set` | include/settings/color_settings.h:136 | the assumed document behaviour: Get of the path returns the stored value, other paths unchanged |
| `ColorSettings.ColorMapParam.constructor` | include/settings/color_settings.h:115-119 | path, key, default, map and read-only flag are the arguments (read-only defaults to false); `GetKey` and `GetDefault` (lines 139-147) return the key and default given |
| `ColorSettings.ColorMapParam.Load` | include/settings/color_settings.h:121-132 | the shared map becomes `LoadSlot` of the document and the old map; the document is not modified |
| `ColorSettings.ColorMapParam.Store` | include/settings/color_settings.h:134-137 | document and shared map become `StoreSlot` of their old values |
| `ColorSettings.ColorMapParam.SetDefault` | include/settings/color_settings.h:149-152 | the shared map becomes `SetDefaultSlot` of the old map |
| `ColorSettings.ColorSettings.constructor` | include/settings/color_settings.h:72 | the name, override flag and colour context are the arguments; the palette is empty; the colour map and the default colour map are fresh and empty |
| `ColorSettings.ColorSettings.SetColorContext` | include/settings/color_settings.h:85-88 | the context becomes the argument (PCB when omitted); name, override flag and palette unchanged |
| `ColorSettings.ColorSettings.SetName` | include/settings/color_settings.h:90-91 | `GetName` then returns the name set; override flag, context and palette unchanged |
| `ColorSettings.ColorSettings.SetOverrideSchItemColors` | include/settings/color_settings.h:93-94 | `GetOverrideSchItemColors` then returns the flag set; name, context and palette unchanged |
| `SchNoConnect.Translate` | eeschema/sch_no_connect.h:78-81 | the moved position differs from the old one by the move vector in each component |
| `SchNoConnect.TranslateInverse` | eeschema/sch_no_connect.h:78-81 | moving by `v` then `-v` restores the position exactly; two moves equal one move by the sum |
| `SchNoConnect.NoConnect.Move` | eeschema/sch_no_connect.h:78-81 | the position is translated by the vector; the size is unchanged |
| `SchNoConnect.NoConnect.SetPosition` | eeschema/sch_no_connect.h:106-107 | `GetPosition` then returns the position set; the size is unchanged |
| `SchNoConnect.NoConnect.constructor` | eeschema/sch_no_connect.h:43 | the position is the argument, (0, 0) when omitted |
| `SchNoConnect.NoConnect.GetSize` | eeschema/sch_no_connect.h:59-62 | the result is at least the stored size and at least three default line thicknesses, and equals one of the two |
| `SchNoConnect.NoConnect.IsConnectable` | eeschema/sch_no_connect.h:87 | always true |
| `SchNoConnect.NoConnect.CanConnect` | eeschema/sch_no_connect.h:89-93 | true for every component; for a line, true exactly when it is on the wire layer; false for every other item type |
| `SchNoConnect.ClassOf` | eeschema/sch_no_connect.h:49-52 | true exactly when the item is present (non-null) and its type is the no-connect type |
| `SchNoConnect.NoConnect.GetClass` | eeschema/sch_no_connect.h:54-57 | the class name is `SCH_NO_CONNECT` |

## Left out

- JSON_SETTINGS is not part of this model. Its document is a flat map from paths to colours. A path that holds a value of another type, which `Get<COLOR4D>` would also answer with nothing, is not represented.
- The loop that runs Load or Store over a settings object's parameter list belongs to JSON_SETTINGS. `LoadAll` and `StoreAll` state what any such loop computes, in list order.
- The constructor bodies of COLOR_SETTINGS and SCH_NO_CONNECT are not shown. In the model, the initial name, override flag, context and marker size are constructor arguments, and the colour maps start empty.
- `COLOR_SETTINGS::GetColor`, `GetDefaultColor`, `SetColor` and `MigrateFromLegacy` are only declared. Their bodies, including the fallback to the "default" theme, are not part of this model. The palette is a field that no modelled member changes.
- The channels of `COLOR4D`, and the value of a default-constructed `COLOR4D`, are floating point. Colours are opaque and compared only for equality.
- `SCH_NO_CONNECT`'s `MirrorX`, `MirrorY`, `Rotate`, `HitTest`, `GetBoundingBox`, `GetConnectionPoints`, `GetEndPoints`, `Print`, `Plot`, `SwapData`, `GetPenSize`, `ViewGetLayers`, `GetNetListItem`, `Clone` and `doIsConnected` are only declared, so they are not modelled.
- The menu text, bitmap and debug `Show` are user-interface concerns, so they are left out.
- `NoConnect.Move`: `wxPoint` has `int` coordinates, and signed overflow is undefined in C++. The model uses unbounded integers, so it does not capture overflow.
- `NoConnect.GetSize`: `GetDefaultLineThickness()` is not shown. It is a parameter, and `KiROUND` of the integer product is taken to be that product.
- `KICAD_T` and the schematic layers are cut down to the cases the predicates name plus one "other" case each.
- `CanConnect` takes a `const SCH_ITEM*` pointer. The source dereferences it without a null test, so the model takes a non-optional item, and a null pointer is not modelled.
- `ColorMapParam.Load`, `Store` and `SetDefault` dereference `m_map` and `aSettings` without a null test. In the model, `target` and `settings` are non-null references, so a null pointer is not modelled.
- The DXF plotter, the library-editor settings panel and the footprint edge class are GUI, plotting and declared-only code, so they are not modelled.
