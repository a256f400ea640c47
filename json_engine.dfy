/**
 * The JSON engine (thumbor/engines/json_engine.py): a recording proxy in
 * front of another image engine.  It keeps a ledger of the geometric
 * operations asked of it, the focal points it was given and a memo of the
 * median colour, and renders them as the `"thumbor"` document.
 */
module Engine {
  import opened Wrappers
  import opened Ledger
  import opened Color
  import opened Document

  /** The pixel data an engine hands out as RGB: its mode and its raw bytes. */
  datatype RawImage = RawImage(mode: string, data: seq<bv8>)

  /**
   * The wrapped engine, seen from the JSON engine.  Its pixel work is not part
   * of this model: a forwarded resize or crop is only known to have reached
   * it (`received`), and its size, image and pixel data afterwards are left
   * open.  `rgbReads` counts how often its pixel data was read.
   */
  class ImageEngine {
    var size: (int, int)
    var image: nat
    var rgbData: RawImage
    ghost var received: seq<Operation>
    ghost var rgbReads: nat

    constructor (size: (int, int), image: nat, rgbData: RawImage)
      ensures this.size == size && this.image == image && this.rgbData == rgbData
      ensures received == [] && rgbReads == 0
    {
      this.size, this.image, this.rgbData := size, image, rgbData;
      received, rgbReads := [], 0;
    }

    method Resize(width: int, height: int)
      modifies this
      ensures received == old(received) + [Operation.Resize(width, height)]
      ensures rgbReads == old(rgbReads)
    {
      received := received + [Operation.Resize(width, height)];
    }

    method Crop(left: int, top: int, right: int, bottom: int)
      modifies this
      ensures received == old(received) + [Operation.Crop(left, top, right, bottom)]
      ensures rgbReads == old(rgbReads)
    {
      received := received + [Operation.Crop(left, top, right, bottom)];
    }

    /** `image_data_as_rgb(update_image)`: the current pixel data as RGB. */
    method ImageDataAsRgb(updateImage: bool) returns (raw: RawImage)
      modifies this
      ensures raw == old(rgbData)
      ensures rgbReads == old(rgbReads) + 1
      ensures received == old(received)
    {
      raw := rgbData;
      rgbReads := rgbReads + 1;
    }
  }

  class JsonEngine {
    const engine: ImageEngine
    const path: string
    const callbackName: Option<string>
    /** The source size, read from the wrapped engine once, at construction. */
    const width: int
    const height: int
    var image: nat
    /** The `_rgb` memo: `None` until the pixel reducer has been run. */
    var rgb: Option<Rgb>
    var operations: seq<Operation>
    var focalPoints: seq<Json>

    constructor (engine: ImageEngine, path: string, callbackName: Option<string>)
      ensures this.engine == engine && this.path == path && this.callbackName == callbackName
      ensures (width, height) == engine.size && image == engine.image
      ensures rgb == None && operations == [] && focalPoints == []
    {
      this.engine := engine;
      this.path := path;
      this.callbackName := callbackName;
      width, height := engine.size.0, engine.size.1;
      rgb := None;
      operations := [];
      focalPoints := [];
      image := engine.image;
    }

    method RefreshImage()
      modifies this`image
      ensures image == engine.image
    {
      image := engine.image;
    }

    /** Records the resize, forwards it and refreshes the image handle. */
    method Resize(w: int, h: int)
      modifies this`operations, this`image, engine
      ensures operations == old(operations) + [Operation.Resize(w, h)]
      ensures focalPoints == old(focalPoints) && rgb == old(rgb)
      ensures engine.received == old(engine.received) + [Operation.Resize(w, h)]
      ensures engine.rgbReads == old(engine.rgbReads)
      ensures image == engine.image
    {
      operations := operations + [Operation.Resize(w, h)];
      engine.Resize(w, h);
      RefreshImage();
    }

    /** Records the crop with its four coordinates as given, forwards it and
        refreshes the image handle. */
    method Crop(left: int, top: int, right: int, bottom: int)
      modifies this`operations, this`image, engine
      ensures operations == old(operations) + [Operation.Crop(left, top, right, bottom)]
      ensures focalPoints == old(focalPoints) && rgb == old(rgb)
      ensures engine.received == old(engine.received) + [Operation.Crop(left, top, right, bottom)]
      ensures engine.rgbReads == old(engine.rgbReads)
      ensures image == engine.image
    {
      operations := operations + [Operation.Crop(left, top, right, bottom)];
      engine.Crop(left, top, right, bottom);
      RefreshImage();
    }

    /** Appends the dictionary of every point, in order; `toDict` is the
        point's own `to_dict`. */
    method Focus<P>(points: seq<P>, toDict: P -> Json)
      modifies this`focalPoints
      ensures focalPoints == old(focalPoints) + seq(|points|, k requires 0 <= k < |points| => toDict(points[k]))
      ensures operations == old(operations) && unchanged(engine)
    {
      var i := 0;
      while i < |points|
        invariant 0 <= i <= |points|
        invariant focalPoints == old(focalPoints) + seq(i, k requires 0 <= k < i => toDict(points[k]))
      {
        focalPoints := focalPoints + [toDict(points[i])];
        i := i + 1;
      }
    }

    /** Only recorded: nothing reaches the wrapped engine. */
    method FlipVertically()
      modifies this`operations
      ensures operations == old(operations) + [Operation.FlipVertically]
      ensures focalPoints == old(focalPoints) && rgb == old(rgb) && image == old(image)
      ensures unchanged(engine)
    {
      operations := operations + [Operation.FlipVertically];
    }

    /** Only recorded: nothing reaches the wrapped engine. */
    method FlipHorizontally()
      modifies this`operations
      ensures operations == old(operations) + [Operation.FlipHorizontally]
      ensures focalPoints == old(focalPoints) && rgb == old(rgb) && image == old(image)
      ensures unchanged(engine)
    {
      operations := operations + [Operation.FlipHorizontally];
    }

    /** The size the ledger implies, replayed from the source size. */
    method GetTargetDimensions() returns (w: int, h: int)
      ensures (w, h) == Project((width, height), operations)
      ensures NoSizing(operations) ==> (w, h) == (width, height)
      ensures forall i :: IsLastSizing(operations, i) ==> (w, h) == operations[i].Size()
    {
      w, h := width, height;
      for i := 0 to |operations|
        invariant (w, h) == Project((width, height), operations[..i])
      {
        var op := operations[i];
        assert operations[..i + 1][..i] == operations[..i];
        if op.Crop? {
          w, h := op.right - op.left, op.bottom - op.top;
        }
        if op.Resize? {
          w, h := op.width, op.height;
        }
      }
      assert operations[..|operations|] == operations;
      if NoSizing(operations) {
        ProjectWithoutSizing((width, height), operations);
      }
      forall i | IsLastSizing(operations, i) ensures (w, h) == operations[i].Size() {
        ProjectIsLastSizing((width, height), operations, i);
      }
    }

    /** Deliberately does nothing. */
    method ConvertToGrayscale()
      ensures unchanged(this) && unchanged(engine)
    {
    }

    /** `_get_rgb`: the memoised result of the pixel reducer `fill` on the
        wrapped engine's RGB data. */
    method GetRgb(fill: (string, seq<bv8>) -> Rgb) returns (c: Rgb)
      modifies this`rgb, engine
      ensures rgb == Some(c)
      ensures old(rgb).Some? ==> c == old(rgb).value && unchanged(engine)
      ensures old(rgb).None? ==>
        c == fill(old(engine.rgbData).mode, old(engine.rgbData).data) &&
        engine.rgbReads == old(engine.rgbReads) + 1 &&
        engine.received == old(engine.received)
    {
      if rgb.Some? {
        return rgb.value;
      }
      var raw := engine.ImageDataAsRgb(true);
      c := fill(raw.mode, raw.data);
      rgb := Some(c);
    }

    /** `get_median_color`: the memoised triple as `#rrggbb`. */
    method GetMedianColor(fill: (string, seq<bv8>) -> Rgb) returns (hex: string)
      modifies this`rgb, engine
      ensures rgb.Some? && hex == MedianHex(rgb.value)
      ensures old(rgb).Some? ==> rgb == old(rgb) && unchanged(engine)
      ensures old(rgb).None? ==>
        rgb == Some(fill(old(engine.rgbData).mode, old(engine.rgbData).data)) &&
        engine.rgbReads == old(engine.rgbReads) + 1 &&
        engine.received == old(engine.received)
    {
      var c := GetRgb(fill);
      hex := MedianHex(c);
    }

    /** What `read` puts in the document once the memo holds `c`. */
    ghost function ReportFor(c: Rgb, whitePercent: Rgb -> real): Report
      reads this
    {
      Report(path, width, height, operations, Project((width, height), operations),
             MedianHex(c), whitePercent(c), focalPoints)
    }

    /**
     * `read`: the document text, wrapped as `name(...);` when the callback
     * name is truthy.  `whitePercent` stands for the colour conversion and
     * rounding of `get_black_percent`, and `dumps` for `json.dumps`; both are
     * applied to what the engine holds, the former to the memoised triple.
     */
    method Read(extension: string, quality: int, fill: (string, seq<bv8>) -> Rgb,
                whitePercent: Rgb -> real, dumps: Json -> string) returns (text: string)
      modifies this`rgb, engine
      ensures rgb.Some?
      ensures text == Wrap(callbackName, dumps(Render(ReportFor(rgb.value, whitePercent))))
      ensures old(rgb).Some? ==> rgb == old(rgb) && unchanged(engine)
      ensures old(rgb).None? ==>
        rgb == Some(fill(old(engine.rgbData).mode, old(engine.rgbData).data)) &&
        engine.rgbReads == old(engine.rgbReads) + 1 &&
        engine.received == old(engine.received)
    {
      var targetWidth, targetHeight := GetTargetDimensions();
      var hex := GetMedianColor(fill);
      var c := GetRgb(fill);
      var doc := Render(Report(path, width, height, operations, (targetWidth, targetHeight),
                               hex, whitePercent(c), focalPoints));
      text := Wrap(callbackName, dumps(doc));
    }
  }

  /** Two renders of one engine with no operation in between give the same
      text, and the pixel reducer's input is read at most once. */
  method ReadTwice(e: JsonEngine, fill: (string, seq<bv8>) -> Rgb,
                   whitePercent: Rgb -> real, dumps: Json -> string)
    returns (first: string, second: string)
    modifies e, e.engine
    ensures first == second
    ensures e.engine.rgbReads <= old(e.engine.rgbReads) + 1
  {
    first := e.Read("json", 80, fill, whitePercent, dumps);
    second := e.Read("json", 80, fill, whitePercent, dumps);
  }
}
