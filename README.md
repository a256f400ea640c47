# thumbor's JSON engine, modelled in Dafny

The JSON engine of thumbor (`thumbor/engines/json_engine.py`) is a recording
proxy in front of another image engine. Instead of producing an image, it
answers with a JSON document (the `"thumbor"` document) that describes what
was asked of it:

- the source: its path and the size the wrapped engine reported when the
  JSON engine was built;
- the ledger of geometric operations, in order: resize, crop, vertical flip
  and horizontal flip;
- the target size, found by replaying the ledger from the source size;
- the median colour, as `#rrggbb`, computed once by a pixel reducer and kept;
- the focal points, when there are any.

The text can be wrapped as a script callback, `name(json);`.

The model has five modules:

- `Wrappers` (`wrappers.dfy`): the `Option` type.
- `Ledger` (`ledger.dfy`): a record is a closed datatype `Operation`, not a
  tagged dictionary. `Project` is the replay as a pure fold. The lemmas about
  it say that the last crop or resize decides the size, that a ledger
  without one keeps the source size, and that flips never matter.
- `Color` (`color.dfy`): Python's `'%02x'` formatting, written out for every
  integer, including the `-` sign of a negative one. It comes with its inverse
  (`ParseHex`, `ParseHex02`, `ParseMedianHex`), the shape of the
  seven-character colour and the round trips.
- `Document` (`document.dfy`): the document as a JSON tree (`Render`) and a
  reader for it (`Parse`). Objects are member lists in the order in which
  the source's dictionary literals are written; the key order of the
  serialised text is left to `dumps`. This module also holds the callback
  wrapping (`Wrap`) and its inverse (`Unwrap`).
- `Engine` (`json_engine.dfy`): the class `JsonEngine` with the engine's own
  fields. `path`, `callbackName`, `width` and `height` are constants, because
  the source assigns them only in its constructor. `image`, `rgb` (the `_rgb`
  memo), `operations` and `focalPoints` are variables that the methods
  reassign. The wrapped engine is the class `ImageEngine`, an abstract
  collaborator. Its ghost field `received` lists the geometric calls that
  reached it. Its ghost field `rgbReads` counts how often its pixel data was
  read. After a forwarded resize or crop, its size, image and pixel data are
  left open.

Foreign calls become parameters of the methods that make them:

- the pixel reducer `_fill.apply` is `fill`;
- the colour conversion and rounding behind `white_percent` are `whitePercent`;
- `json.dumps` is `dumps`;
- a focal point's `to_dict` is `toDict`.

`crop` and `resize` validate nothing: a crop with `right < left` projects to
a negative width. Flips are only recorded and never reach the wrapped engine.

## Model

| member | source | states |
|---|---|---|
| `Ledger.ProjectAppend` | thumbor/engines/json_engine.py:69-82 | replaying `a + b` is replaying `b` from the size that replaying `a` leaves |
| `Ledger.ProjectWithoutSizing` | thumbor/engines/json_engine.py:69-82 | a ledger with no crop and no resize projects to the source size |
| `Ledger.ProjectIsLastSizing` | thumbor/engines/json_engine.py:69-82 | when `ops[i]` is the last crop or resize, the projection is that record's size: `(right-left, bottom-top)` for a crop, `(width, height)` for a resize |
| `Ledger.FlipIsInvisible` | thumbor/engines/json_engine.py:73-80 | inserting a flip anywhere in a ledger does not change its projection |
| `Ledger.WithoutFlips` | thumbor/engines/json_engine.py:73-80 | the ledger with flips removed holds exactly the size-setting records of the ledger: each of its records is a size-setting record of the ledger, and every size-setting record of the ledger is in it |
| `Ledger.WithoutFlipsAppend` | thumbor/engines/json_engine.py:73-80 | removing flips from two ledgers joined is joining the two flip-free ledgers, so the size-setting records keep their order |
| `Ledger.ProjectIgnoresFlips` | thumbor/engines/json_engine.py:73-80 | a ledger and the same ledger without its flips project to the same size |
| `Ledger.CropThenResizeExample` | thumbor/engines/json_engine.py:69-82 | from 800x600, crop(0,0,400,600) then resize(200,300) projects to 200x300 |
| `Ledger.FlipOnlyExample` | thumbor/engines/json_engine.py:69-82 | from 100x100, a lone horizontal flip projects to 100x100 |
| `Color.HexShape` | thumbor/engines/json_engine.py:132 | `%x` writes at least one lower-case hex digit, exactly one below 16 and at most two below 256 |
| `Color.HexRoundTrip` | thumbor/engines/json_engine.py:132 | the digits `%x` writes for `n` read back as `n` |
| `Color.Hex02Shape` | thumbor/engines/json_engine.py:132 | `%02x` of a value in 0..255 is exactly two lower-case hex digits |
| `Color.Hex02RoundTrip` | thumbor/engines/json_engine.py:132 | every `%02x` field, negative values included, reads back as the number written |
| `Color.NegativeRoundTrip` | thumbor/engines/json_engine.py:132 | a negative channel is written as `-` followed directly by its magnitude's digits, with no `0` padded after the sign, so the field has two characters exactly when the channel is above -16; it reads back as itself |
| `Color.MedianHexShape` | thumbor/engines/json_engine.py:130-132 | for channels in 0..255 the median colour is `#` followed by six lower-case hex digits, red, green and blue two each |
| `Color.MedianHexRoundTrip` | thumbor/engines/json_engine.py:130-132 | for channels in 0..255 the `#rrggbb` text gives back the triple |
| `Document.ResizeFields` | thumbor/engines/json_engine.py:40-44 | a resize record is tagged `"resize"` and carries its width and height unchanged |
| `Document.CropFields` | thumbor/engines/json_engine.py:49-55 | a crop record is tagged `"crop"` and carries its four coordinates unchanged |
| `Document.OperationRoundTrip` | thumbor/engines/json_engine.py:39-67 | each record's dictionary reads back as that record: the `"type"` tag names the variant and the fields hold its arguments unchanged |
| `Document.OperationsRoundTrip` | thumbor/engines/json_engine.py:148 | the `operations` array reads back as the whole ledger, in order |
| `Document.ThumborKeysDistinct` | thumbor/engines/json_engine.py:141-158 | the document tree always holds `source`, `operations`, `target` and `median_color`, in that order in its member list, and none of them is `focal_points` |
| `Document.FocalPointsPresentIff` | thumbor/engines/json_engine.py:160-161 | the `focal_points` key is present iff there is at least one focal point, and then it holds the points in order |
| `Document.RenderRoundTrip` | thumbor/engines/json_engine.py:139-161 | reading the rendered document back gives the source url and size, the ledger, the target size, the colour, the white percentage and the focal points that went in |
| `Document.Wrap` | thumbor/engines/json_engine.py:165-168 | with a truthy callback name the text is the name, `(`, the JSON text and `);`; with `None` or an empty name it is the JSON text alone |
| `Document.UnwrapWrap` | thumbor/engines/json_engine.py:165-168 | the JSON text is recovered from the wrapped output |
| `Document.WrapUnwrap` | thumbor/engines/json_engine.py:165-168 | only the wrapping of `json` unwraps to `json`, so the wrapped shape is exact |
| `Engine.JsonEngine.constructor` | thumbor/engines/json_engine.py:21-30 | captures the wrapped engine's size and image; the ledger and focal points start empty and the memo starts unset |
| `Engine.JsonEngine.RefreshImage` | thumbor/engines/json_engine.py:32-33 | the image handle becomes the wrapped engine's current image |
| `Engine.JsonEngine.Resize` | thumbor/engines/json_engine.py:39-46 | appends exactly `Resize(w, h)` to the ledger and forwards the same call; the focal points and the memo stay as they were |
| `Engine.JsonEngine.Crop` | thumbor/engines/json_engine.py:48-57 | appends exactly one crop record with the four coordinates as given and forwards the same call; the focal points and the memo stay as they were |
| `Engine.JsonEngine.Focus` | thumbor/engines/json_engine.py:59-61 | appends each point's dictionary in input order, one per point; the ledger and the wrapped engine are untouched |
| `Engine.JsonEngine.FlipVertically` | thumbor/engines/json_engine.py:63-64 | appends one vertical-flip record and changes nothing else: no call reaches the wrapped engine and the image handle is not refreshed |
| `Engine.JsonEngine.FlipHorizontally` | thumbor/engines/json_engine.py:66-67 | appends one horizontal-flip record and changes nothing else: no call reaches the wrapped engine and the image handle is not refreshed |
| `Engine.JsonEngine.GetTargetDimensions` | thumbor/engines/json_engine.py:69-82 | changes no field and returns the replay of the ledger from the source size: the source size when there is no crop or resize, otherwise the size of the last one |
| `Engine.JsonEngine.ConvertToGrayscale` | thumbor/engines/json_engine.py:120-121 | changes neither the JSON engine nor the wrapped engine |
| `Engine.JsonEngine.GetRgb` | thumbor/engines/json_engine.py:123-128 | once the memo is set, returns it without touching the wrapped engine; otherwise reads the pixel data once, reduces it and stores the triple |
| `Engine.JsonEngine.GetMedianColor` | thumbor/engines/json_engine.py:130-132 | returns the memoised triple as `#rrggbb`, with the same memo behaviour as `GetRgb` |
| `Engine.JsonEngine.Read` | thumbor/engines/json_engine.py:139-168 | returns the callback wrapping of the serialised document. The document holds the source path and size, the ledger, its projection, the memoised colour and its white percentage, and the focal points. The pixel data is read only if the memo was unset |
| `Engine.ReadTwice` | thumbor/engines/json_engine.py:123-125 | two renders with no operation between them give the same text and read the pixel data at most once |

## Left out

- The pass-through methods `gen_image`, `create_image`, `draw_rectangle`, `rotate`, `read_multiple`, `paste`, `enable_alpha`, `strip_icc`, `get_image_mode`, `get_image_data`, `set_image_data` and the `size` property are not modelled. Each is a one-line forward to the wrapped engine that never touches the ledger, the focal points or the memo. `image_data_as_rgb` is modelled only as the read inside `GetRgb`.
- The wrapped engine's own pixel work is not modelled: what its `resize`, `crop` and `image_data_as_rgb` do to its size, image and pixels. That engine is not part of this model.
- `get_black_percent` is not modelled: the colormath conversion, the floating-point division by 255 and `round(..., 3)` are foreign or floating point. `Read` takes the white percentage as a function of the memoised triple.
- The exact text `json.dumps` produces is not modelled; `Read` takes the serialiser as a parameter.
- The pixel reducer `_fill.apply` and a focal point's `to_dict` are foreign; they are parameters.
- `BaseEngine` construction and the request `context` are framework plumbing and not part of this model.
- Engine.JsonEngine.GetRgb: the memo test is `rgb.Some?`, not Python truthiness. The two agree because the reducer returns a three-element tuple, which is always truthy.
- Collaborator failures are not modelled: the wrapped engine, `fill`, `toDict`, `whitePercent` and `dumps` are total here. In the source an exception from any of them propagates and leaves the engine part-way through its update, and the model does not capture those partial states. A raising `engine.resize` or `engine.crop` leaves the record already appended to the ledger and the image handle not refreshed (thumbor/engines/json_engine.py:40-46, 49-57). A raising `to_dict` in `focus` leaves the points before it appended (thumbor/engines/json_engine.py:60-61). A raising `image_data_as_rgb` or `_fill.apply` leaves `_rgb` unset, and `read` fails (thumbor/engines/json_engine.py:126-127).
- Document.IsTruthy: a callback name is a string or `None`; other Python values for it are not modelled.
