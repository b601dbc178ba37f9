# EstiBuild quantity take-off, modelled in Dafny

This project models the computational core of EstiBuild's `utils.py`. That
core turns a 2-D drawing into room polygons, measures the rooms, and derives
construction material quantities from the measurements. It has three stages:

- **Drawing reader** (`Extraction`). Each LINE, and each polyline with at
  least three vertices, becomes a line string (utils.py:31-48). Other entity
  types and shorter polylines contribute nothing. A LINE gives a two-point
  string. A polyline's vertex list is closed by repeating its first point
  unless it already ends there. The line strings go to the polygonizer. If
  there are none, the reader returns no faces. Otherwise it keeps the faces
  whose area exceeds 1e-6, in order.
- **Room metrics** (`Metrics`). Face *i* becomes room *i+1* with these values:
  - its area and perimeter;
  - its carpet area, which is the area of the inward buffer by the wall
    thickness. When that buffer is empty or raises, the carpet area is
    `max(0, area - perimeter x thickness)`;
  - its nominal long and short walls, which are twice the bounding-box width
    and height;
  - its bounds.

  The built-up, carpet and perimeter totals are accumulated over the rooms.
- **Material estimator** (`Materials`). It uses closed forms over the totals,
  the wall thickness, the cement bag mass, the plaster thickness and the tile
  size. The output is a fixed twelve-item work list, a 1:2:4 concrete
  breakdown with dry-volume factor 1.54 and cement at 1440 kg/m3, and a tile
  count that is the ceiling of carpet area over tile area.

Quantities are Dafny `real`s, so the contracts are exact arithmetic
statements, not statements about IEEE doubles. `Geometry` holds the shared
records. A reconstructed face is a `Polygon` record with these fields:

- `area`, `length` and `bounds`, as the geometry library reports them;
- `inset`, the outcome of the inward buffer: `Region(area)`, `Collapsed`
  (empty) or `Raised` (the buffer raised).

`Wrappers` holds `Option` and `Result`. The polygonizer, which nodes the line
strings and extracts their faces, is a function parameter of
`Extraction.ParseToPolygons`.

Notes on the source's behaviour:

- Plaster volume is `3 x perimeter x plaster_thickness_mm / 1000`
  (utils.py:144-146). It does not depend on the wall thickness.
  `Materials.WallThicknessEffect` proves that plaster, paint and concrete are
  unchanged when the wall thickness changes, and that bricks strictly grow.
- Python raises `ZeroDivisionError` when the mix parts sum to 0 (the division
  at utils.py:158) and when `cement_bag_kg` is 0 (utils.py:160). The model
  returns `Failure(ZeroMixParts)` or `Failure(ZeroBagMass)` in these cases.
- The tile count is zero when `(tile_size_mm/1000)^2 > 0` fails
  (utils.py:149-150). This happens only for a zero tile size.
- The fallback carpet area (utils.py:73-75) equals the built-up area when the
  wall thickness is 0, and also when the perimeter is 0.

## Model

| member | source | states |
|---|---|---|
| `Extraction.ClosePolyline` | utils.py:45-48 | A vertex list contributes nothing exactly when it has fewer than 3 points. Otherwise the result is closed and starts with the whole input. It has at most one extra point, and it equals the input exactly when the input was already closed. |
| `Extraction.ClosePolylineIdempotent` | utils.py:45-47 | Closing an already closed list changes nothing. |
| `Extraction.EntityChain` | utils.py:29-48 | An entity contributes a line string exactly when it is a LINE or a polyline with at least 3 readable vertices. A LINE gives its two endpoints. A polyline gives its vertex list (point list first, else vertex records) closed by `ClosePolyline`. Every contributed string is a two-point line or a closed ring of at least 3 points. |
| `Extraction.ExtractChains` | utils.py:28-48 | There is at most one line string per entity. The list is empty exactly when no entity contributes. Every string is well formed (two points, or closed). |
| `Extraction.ExtractChainsAppend` | utils.py:29-48 | Extraction works entity by entity. The strings of a concatenation are the concatenation of the strings. |
| `Extraction.ExtractChainsSingleton` | utils.py:29-48 | A single entity yields exactly the one line string it contributes, or nothing. With `ExtractChainsAppend` this fixes the content and entity order of every extraction. |
| `Extraction.FilterNoise` | utils.py:55 | Every kept face has area above 1e-6. Each face above the threshold is kept as many times as it occurs, and no other face is kept. |
| `Extraction.FilterNoiseAppend` | utils.py:55 | The filter keeps relative order. Filtering a concatenation gives the concatenation of the filtered parts. |
| `Extraction.FilterNoiseKeepsAll` | utils.py:55 | The filter returns its input unchanged if and only if every face is above the threshold. |
| `Extraction.FilterNoiseIdempotent` | utils.py:55 | Filtering twice is the same as filtering once. |
| `Extraction.ParseToPolygons` | utils.py:50-56 | When no entity contributes a line string, the result is empty. Otherwise it is exactly the polygonizer's faces for the extracted strings with area above 1e-6, in polygonizer order: every returned face comes from the polygonizer and is above the threshold, and every polygonizer face above the threshold is returned. |
| `Metrics.CarpetArea` | utils.py:71-75 | A non-empty inward buffer gives its own area. An empty or failed buffer gives a non-negative value that is either 0 or area - perimeter x thickness, whichever is larger. |
| `Metrics.CarpetWithinArea` | utils.py:71-75 | For a genuine face and a non-negative wall thickness, the carpet area is between 0 and the built-up area. |
| `Metrics.FallbackCarpetShrinks` | utils.py:73-75 | In the fallback branch, a positive thickness strictly reduces a face that has positive area and perimeter. |
| `Metrics.TotalAppend` | utils.py:91-93 | The totals over two room lists are the componentwise sums of their totals. Two disjoint rooms therefore give pairwise-sum totals. |
| `Metrics.TotalCarpetWithinBuiltUp` | utils.py:91-106 | If every room's carpet area is between 0 and its area, the same holds for the totals. |
| `Metrics.RoomsCarpetWithinBuiltUp` | utils.py:68-106 | For genuine faces and a non-negative thickness, the total carpet area of the rooms made from them is between 0 and the total built-up area. |
| `Metrics.ComputeAreasAndWalls` | utils.py:58-108 | Each face yields one room, numbered 1..n in input order. A room has the face's area, perimeter and bounds, its carpet area, and walls of 2 x width and 2 x height. The running totals equal the reference sums of room area, carpet area and perimeter. |
| `Metrics.RectangleRoom` | utils.py:68-89 | A closed 10 x 6 rectangle at the origin, with an inset region of area 53.76, is described by exactly one room: room 1 with area 60, carpet area 53.76, perimeter 32, walls of 20 and 12, and bounds (0,0,10,6). |
| `Materials.ConcreteMaterials` | utils.py:153-169 | The call fails when the mix parts sum to 0, then when the bag mass is 0, and succeeds otherwise. On success, cement, sand and aggregate volumes add up to 1.54 x volume, each pair is in the ratio of its mix parts, and bags x bag mass = cement kg. |
| `Materials.SplitProportional` | utils.py:156-162 | Splitting a dry volume by mix parts uses all of it and keeps every pair of constituents in the ratio of their parts. |
| `Materials.NominalMixBreakdown` | utils.py:153-172 | For the 1:2:4 mix, sand is 2 x and aggregate 4 x the cement volume. All three add up to 1.54 x volume, cement weighs 316.8 kg per m3 of wet concrete, and bags x bag mass = cement kg. |
| `Materials.Ceil` | utils.py:150 | The result is the unique integer n with n - 1 < x <= n. |
| `Materials.CeilCovers` | utils.py:150 | For a positive tile area, ceil(carpet / area) tiles cover the carpet, and one tile fewer does not. |
| `Materials.TileCount` | utils.py:148-150 | For a positive tile area, the result is the fewest whole tiles whose area reaches the carpet area. Otherwise, and always for tile size 0, it is 0. |
| `Materials.WorkList` | utils.py:183-196 | The work list has the twelve catalog items in catalog order, each with its catalog unit (m3, kg, nos, bags of the given mass, liters), only Sand and Coarse aggregate keyed `quantity_m3`, and item i carries the i-th quantity of the take-off. |
| `Materials.EstimateMaterials` | utils.py:110-208 | The estimate succeeds exactly when the bag mass is non-zero. On success it lists the twelve catalog items in order with their catalog units, and only Sand and Coarse aggregate are keyed `quantity_m3`. Excavation is P, PCC 0.1A, footing 0.3P, slab 0.15A, bricks 1500·P·t, plaster 3P·mm/1000, paint 0.3P. Steel is 80 x (PCC + footing + slab). The concrete breakdown is the 1:2:4 split of that same combined volume, and sand, aggregate, cement, plaster, tiles and paint match the breakdown and scalar fields. |
| `Materials.ZeroTotalsZeroItems` | utils.py:115-196 | With zero totals, every work-item quantity is 0 and the tile count is 0, whatever the wall thickness and tile size. |
| `Materials.WallThicknessEffect` | utils.py:135-176 | For a positive perimeter, a thicker wall gives strictly more bricks. Plaster, paint and the concrete breakdown do not change. |
| `Materials.RectangleScenario` | utils.py:120-150 | Take the 10 x 6 rectangle with default settings. It gives 32 m3 excavation, 6 m3 PCC, 9 m3 slab, 24.6 m3 of concrete, 9600 bricks and 150 tiles of 600 mm. |

## Left out

- Reading the DXF file and iterating its model space (utils.py:25-29) is file I/O through ezdxf. Entities are an input datatype instead, and a read that raises is `None`.
- Noding and face extraction (`unary_union`, `polygonize`, utils.py:53-54) come from a foreign geometry library. They are the function parameter `polygonize`.
- The inward buffer (utils.py:72) also comes from that library. Its outcome is the `inset` field of each face record.
- Area, length and bounds of a face come from that library too. They are fields of the face record.
- Points are 2-D. The vertex fallback path (utils.py:42) keeps a z coordinate, so its closure test compares 3-tuples. The model compares (x, y) only.
- Points of fewer than two coordinates (the `tuple(p)` branch of utils.py:38) are not modelled.
- The fixed advisory notes are constants with no behaviour: the setback note (utils.py:95-96) and the contingency note (utils.py:198).
- The cement unit label `bags ({cement_bag_kg}kg)` is the value `Bags(cementBagKg)`. Number-to-text formatting is not modelled.
- `render_plan_image_bytes` (utils.py:210-226) is rendering and I/O.
- `export_measurement_sheets_bytes` (utils.py:228-263) is spreadsheet serialisation.
- IEEE-754 rounding of the float arithmetic is not modelled. All quantities are exact reals.
- `Materials.TileCount`: positivity of the tile area is taken as the source tests it (`tile_area > 0`). "Positive exactly when the tile size is non-zero" is not proved. Only size 0 ⇒ 0 tiles is stated.
