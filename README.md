# Point layer of the level editor, modelled in Dafny

The level editor keeps labelled 2D markers in a *point layer*. The layer
holds three growable arrays that stay in lockstep: positions, colours and
identifiers. It also holds a selection index, where -1 means nothing is
selected. The layer is built from a level file. A render pass draws one
triangle marker per point, and the selected point also gets a larger halo
in the inverted colour. A left mouse press either selects the first point
within the element radius or appends a new point with a random lowercase
identifier. The Delete key removes the selected point from all three
arrays and clears the selection.

The model is in two modules:

- `PointLayerSpec` (`point_layer_spec.dfy`) holds the values: points,
  colours, identifiers, events, parsed lines of the level file, draw
  commands. It also holds the specification functions (hit test, letter
  generation, `RemoveAt`, the scan-target carry-over `Carried`, the render
  plan `Plan`) and the lemmas about them.
- `PointLayerEditor` (`point_layer.dfy`) holds the class `PointLayer`. Its
  fields are `points`, `colors`, `ids` (sequence fields that each mutation reassigns) and
  `selected`. The module also has the loader `CreateFromLineStream` and
  the loops of the hit test and of identifier generation. The module
  `PointLayerScenario` is a client. It loads two points, selects one with a
  press and deletes it, and it derives each state from the contracts alone.

`Lockstep()` is the three-equal-lengths invariant. `Valid()` adds that the
selection is -1 or in bounds. The handlers and the renderer need only
`Lockstep()`, as the source does: the Delete handler checks the bounds
itself. The constructor, the loader, `Push`, `MouseButton` and `Keyboard`
preserve `Valid()`; `DeleteAt` alone does not, and `Keyboard` resets the
selection right after it, as line 179 of the source does.

Collaborators become parameters:

- the random source is `rand(k)`, the value of its `k`-th call;
- the camera's fill primitive succeeds on its `k`-th call exactly when `drawOk(k)`;
- colour inversion is `invert`;
- hex decoding is `hexstr`;
- the camera's screen-to-world mapping is already applied to the event's position.

The loader takes the scanner's result for each line rather than text. The
identifier, x, y and colour-name buffers live across loop iterations. An
entry line that converts only some targets therefore keeps the previous
line's values in the others. The first line's unreached targets come from
`init`, which stands for the buffers' uninitialised contents. Such a line is
still pushed. Only a line that ends before any conversion abandons the load.
The code is followed here, not a stricter reading under which any malformed
line fails.

## Model

| member | source | states |
|---|---|---|
| `PointLayerEditor.HitTest` | src/game/level/level_editor/point_layer.c:144-149 | returns the smallest index whose point lies strictly within the element radius of the press, or -1 exactly when no point does (first hit wins, not closest) |
| `PointLayerEditor.GenerateId` | src/game/level/level_editor/point_layer.c:151-156 | fills the first `ID_MAX_SIZE-1` bytes with `'a' + rand(k) % 26`, so every written character is in `'a'..'z'` |
| `PointLayerSpec.Letter` | src/game/level/level_editor/point_layer.c:155 | one random value gives one letter in `'a'..'z'` |
| `PointLayerSpec.RemoveAt` | src/game/level/level_editor/point_layer.c:174-176 | removing index `k` shortens by one, keeps entries before `k`, shifts later entries down one, and removes exactly that one element from the multiset |
| `PointLayerEditor.PointLayer.constructor` | src/game/level/level_editor/point_layer.c:38-53 | a new layer has three empty arrays and selection -1 |
| `PointLayerEditor.PointLayer.Push` | src/game/level/level_editor/point_layer.c:78-80 | appends one element to each of the three arrays, keeps the selection, keeps them in lockstep |
| `PointLayerEditor.PointLayer.DeleteAt` | src/game/level/level_editor/point_layer.c:174-176 | removes the same index from each of the three arrays, keeping them in lockstep |
| `PointLayerEditor.PointLayer.MouseButton` | src/game/level/level_editor/point_layer.c:131-164 | on a left press with a hit: arrays unchanged and the selection becomes the first hit; with no hit: position, colour and a generated id appended at index n, earlier entries and the selection unchanged; other events change nothing; returns 0; lockstep and `Valid()` preserved |
| `PointLayerEditor.PointLayer.Keyboard` | src/game/level/level_editor/point_layer.c:166-183 | on a Delete press with an in-bounds selection, that index is removed from all three arrays; with any other selection the arrays are unchanged; in both cases the selection becomes -1; other events change nothing; returns 0 |
| `PointLayerEditor.PointLayer.Render` | src/game/level/level_editor/point_layer.c:92-127 | reads the layer only; the draws issued are a prefix of the full plan; returns 0 exactly when the whole plan was drawn without failure, otherwise -1 right after the first failing draw |
| `PointLayerSpec.PlanLayout` | src/game/level/level_editor/point_layer.c:102-124 | a full pass has one marker per point in index order (scale 10, stored colour) plus, for an in-bounds selection, one halo (scale 15, inverted colour) placed immediately before that point's marker |
| `PointLayerSpec.PlanPrefix` | src/game/level/level_editor/point_layer.c:102-124 | the draws for the first m points are a prefix of the draws for the first n >= m points, which is why an aborted pass draws a prefix |
| `PointLayerEditor.PointLayer.Count` | src/game/level/level_editor/point_layer.c:185-189 | the count is the length of the positions, and of the colours and identifiers too |
| `PointLayerEditor.PointLayer.Points` | src/game/level/level_editor/point_layer.c:191-195 | read-only view of the positions, `Count()` long |
| `PointLayerEditor.PointLayer.Colors` | src/game/level/level_editor/point_layer.c:197-201 | read-only view of the colours, `Count()` long, index-aligned with the positions |
| `PointLayerEditor.PointLayer.Ids` | src/game/level/level_editor/point_layer.c:203-207 | read-only view of the identifiers, `Count()` long, index-aligned with the positions |
| `PointLayerEditor.CreateFromLineStream` | src/game/level/level_editor/point_layer.c:26-84 | null exactly when the count line or one of the first `count` entry lines ends before any conversion; otherwise a fresh valid layer with selection -1, `count` entries, and entry i holding line i's id, (x, y) and `hexstr` of its colour name (as carried in the scan targets), in file order; a line with all four conversions is stored exactly as written |
| `PointLayerSpec.FullLineLoadsVerbatim` | src/game/level/level_editor/point_layer.c:68-80 | an entry line on which all four conversions succeed is loaded exactly as written, whatever the earlier lines held |

## Left out

- SDL event structures and `camera_map_screen`: an event is a small datatype that carries the world-space position directly.
- Triangle and matrix geometry (`equilateral_triangle`, `trans_mat`, `scale_mat`, the matrix products) and `camera_fill_triangle`: a draw is a `(position, scale, colour)` command and its success is an oracle.
- Single-precision floating point: positions, colours and the radius are reals. The hit test compares squared distance with the squared radius, which matches `vec_length(...) < 10` on exact reals but not on IEEE rounding.
- Text parsing (`line_stream_next`, the `sscanf` formats, `hexstr`) and `color_invert`: the loader receives each line's scan outcome, and the two colour utilities are parameters.
- Lines past the end of the stream are read as ending before any conversion. What `line_stream_next` returns at the end of input is not part of this model.
- A count written as a negative number, which `%lu` would wrap to a huge value: the count is a natural number.
- `rand()`: its successive values are a parameter. `ID_MAX_SIZE` is defined in a header that is not part of this model. It is fixed at 36 in one constant, and no proof depends on that value beyond its being positive.
- `Points()`, `Colors()` and `Ids()` return value snapshots. The source returns pointers into the growable arrays' buffers, which a later push or delete can invalidate; that aliasing and invalidation is not modelled.
- The lifetime tracker, allocation failures, `destroy_point_layer`, logging and the unchecked results of `dynarray_push`: these are memory and I/O plumbing. Pushes always succeed in the model.
- Two buffer quirks are not modelled. The generated identifier's last byte is never written, so the model keeps only the written letters. The scan width for the identifier can overrun its `ID_MAX_SIZE` buffer, and the model stores whatever token the scanner produced.
