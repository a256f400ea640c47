/**
 * The document `read` assembles (thumbor/engines/json_engine.py) and the
 * callback wrapping of its text.
 *
 * The document is kept as a JSON tree whose objects are lists of members in
 * the order the source's dictionary literals are written.  Turning the tree
 * into text (`json.dumps`), including the key order of that text, is a
 * library call outside this model; the wrapping is stated over whatever text
 * that call produces.
 */
module Document {
  import opened Wrappers
  import opened Ledger

  datatype Json =
    | JNull
    | JBool(b: bool)
    | JInt(i: int)
    | JReal(r: real)
    | JStr(s: string)
    | JArr(items: seq<Json>)
    | JObj(members: seq<(string, Json)>)

  /** Everything one `read` reports: the source, the ledger, the projected
      size, the median colour and the focal points. */
  datatype Report = Report(
    url: string,
    width: int,
    height: int,
    operations: seq<Operation>,
    target: (int, int),
    hex: string,
    whitePercent: real,
    focalPoints: seq<Json>)

  // ---- Writing ----

  /** The dictionary a ledger record is, with its `"type"` tag first. */
  function OperationJson(op: Operation): Json {
    match op
    case Resize(w, h) =>
      JObj([("type", JStr("resize")), ("width", JInt(w)), ("height", JInt(h))])
    case Crop(l, t, r, b) =>
      JObj([("type", JStr("crop")), ("left", JInt(l)), ("top", JInt(t)),
            ("right", JInt(r)), ("bottom", JInt(b))])
    case FlipVertically => JObj([("type", JStr("flip_vertically"))])
    case FlipHorizontally => JObj([("type", JStr("flip_horizontally"))])
  }

  function OperationsJson(ops: seq<Operation>): seq<Json> {
    seq(|ops|, k requires 0 <= k < |ops| => OperationJson(ops[k]))
  }

  /** The members of the `"thumbor"` object, `focal_points` only when there are any. */
  function ThumborMembers(r: Report): seq<(string, Json)> {
    var fields := [
      ("source", JObj([("url", JStr(r.url)), ("width", JInt(r.width)), ("height", JInt(r.height))])),
      ("operations", JArr(OperationsJson(r.operations))),
      ("target", JObj([("width", JInt(r.target.0)), ("height", JInt(r.target.1))])),
      ("median_color", JObj([("hex", JStr(r.hex)), ("white_percent", JReal(r.whitePercent))]))
    ];
    if r.focalPoints != [] then fields + [("focal_points", JArr(r.focalPoints))] else fields
  }

  function Render(r: Report): Json {
    JObj([("thumbor", JObj(ThumborMembers(r)))])
  }

  // ---- Reading back ----

  /** The value of the first member named `key`, as a dictionary lookup. */
  function Lookup(members: seq<(string, Json)>, key: string): Option<Json>
    decreases |members|
  {
    if members == [] then None
    else if members[0].0 == key then Some(members[0].1)
    else Lookup(members[1..], key)
  }

  function MembersOf(j: Json): Option<seq<(string, Json)>> {
    if j.JObj? then Some(j.members) else None
  }

  function IntField(members: seq<(string, Json)>, key: string): Option<int> {
    var v :- Lookup(members, key);
    if v.JInt? then Some(v.i) else None
  }

  function StrField(members: seq<(string, Json)>, key: string): Option<string> {
    var v :- Lookup(members, key);
    if v.JStr? then Some(v.s) else None
  }

  function ObjField(members: seq<(string, Json)>, key: string): Option<seq<(string, Json)>> {
    var v :- Lookup(members, key);
    MembersOf(v)
  }

  function ParseOperation(j: Json): Option<Operation> {
    var m :- MembersOf(j);
    var tag :- StrField(m, "type");
    if tag == "resize" then
      var w :- IntField(m, "width");
      var h :- IntField(m, "height");
      Some(Resize(w, h))
    else if tag == "crop" then
      var l :- IntField(m, "left");
      var t :- IntField(m, "top");
      var r :- IntField(m, "right");
      var b :- IntField(m, "bottom");
      Some(Crop(l, t, r, b))
    else if tag == "flip_vertically" then Some(FlipVertically)
    else if tag == "flip_horizontally" then Some(FlipHorizontally)
    else None
  }

  function ParseOperations(items: seq<Json>): Option<seq<Operation>>
    decreases |items|
  {
    if items == [] then Some([])
    else
      var head :- ParseOperation(items[0]);
      var tail :- ParseOperations(items[1..]);
      Some([head] + tail)
  }

  function Parse(doc: Json): Option<Report> {
    var top :- MembersOf(doc);
    var t :- ObjField(top, "thumbor");
    var source :- ObjField(t, "source");
    var url :- StrField(source, "url");
    var width :- IntField(source, "width");
    var height :- IntField(source, "height");
    var opsJson :- Lookup(t, "operations");
    var ops :- if opsJson.JArr? then ParseOperations(opsJson.items) else None;
    var target :- ObjField(t, "target");
    var tw :- IntField(target, "width");
    var th :- IntField(target, "height");
    var median :- ObjField(t, "median_color");
    var hex :- StrField(median, "hex");
    var wpJson :- Lookup(median, "white_percent");
    var wp :- if wpJson.JReal? then Some(wpJson.r) else None;
    var focal :- match Lookup(t, "focal_points")
      case None => Some([])
      case Some(JArr(items)) => Some(items)
      case Some(_) => None;
    Some(Report(url, width, height, ops, (tw, th), hex, wp, focal))
  }

  // ---- Properties of the document ----

  /** A lookup finds the first member with the key. */
  lemma {:induction false} LookupAt(members: seq<(string, Json)>, key: string, i: nat)
    requires i < |members| && members[i].0 == key
    requires forall j :: 0 <= j < i ==> members[j].0 != key
    ensures Lookup(members, key) == Some(members[i].1)
    decreases i
  {
    if i > 0 {
      LookupAt(members[1..], key, i - 1);
    }
  }

  /** A lookup of a key no member has finds nothing. */
  lemma {:induction false} LookupMissing(members: seq<(string, Json)>, key: string)
    requires forall j :: 0 <= j < |members| ==> members[j].0 != key
    ensures Lookup(members, key) == None
    decreases |members|
  {
    if members != [] {
      LookupMissing(members[1..], key);
    }
  }

  /** The `width` and `height` members of a `{width, height}` object. */
  lemma SizeFields(w: int, h: int)
    ensures IntField([("width", JInt(w)), ("height", JInt(h))], "width") == Some(w)
    ensures IntField([("width", JInt(w)), ("height", JInt(h))], "height") == Some(h)
  {
    assert "width" != "height";
    LookupAt([("width", JInt(w)), ("height", JInt(h))], "height", 1);
  }

  /** The fields of a resize record. */
  lemma ResizeFields(w: int, h: int)
    ensures var m := OperationJson(Resize(w, h)).members;
      StrField(m, "type") == Some("resize") && IntField(m, "width") == Some(w) && IntField(m, "height") == Some(h)
  {
    var m := OperationJson(Resize(w, h)).members;
    assert "type" != "width" && "type" != "height" && "width" != "height";
    LookupAt(m, "width", 1);
    LookupAt(m, "height", 2);
  }

  /** The fields of a crop record. */
  lemma CropFields(l: int, t: int, r: int, b: int)
    ensures var m := OperationJson(Crop(l, t, r, b)).members;
      StrField(m, "type") == Some("crop") &&
      IntField(m, "left") == Some(l) && IntField(m, "top") == Some(t) &&
      IntField(m, "right") == Some(r) && IntField(m, "bottom") == Some(b)
  {
    var m := OperationJson(Crop(l, t, r, b)).members;
    assert "type"[1] != "left"[1];
    assert "type" != "top" && "left" != "top";
    assert "type" != "right" && "left" != "right" && "top" != "right";
    assert "type" != "bottom" && "left" != "bottom" && "top" != "bottom" && "right" != "bottom";
    LookupAt(m, "left", 1);
    LookupAt(m, "top", 2);
    LookupAt(m, "right", 3);
    LookupAt(m, "bottom", 4);
  }

  /** Every record reads back as itself: the `"type"` tag names its variant. */
  lemma OperationRoundTrip(op: Operation)
    ensures ParseOperation(OperationJson(op)) == Some(op)
  {
    match op
    case Resize(w, h) =>
      ResizeFields(w, h);
    case Crop(l, t, r, b) =>
      CropFields(l, t, r, b);
      assert "crop" != "resize";
    case FlipVertically =>
      assert "flip_vertically" != "resize" && "flip_vertically" != "crop";
    case FlipHorizontally =>
      assert "flip_horizontally" != "resize" && "flip_horizontally" != "crop";
      assert "flip_horizontally"[5] != "flip_vertically"[5];
  }

  /** The `operations` array reads back as the ledger, in order. */
  lemma {:induction false} OperationsRoundTrip(ops: seq<Operation>)
    ensures ParseOperations(OperationsJson(ops)) == Some(ops)
    decreases |ops|
  {
    if ops != [] {
      OperationRoundTrip(ops[0]);
      assert OperationsJson(ops)[1..] == OperationsJson(ops[1..]);
      OperationsRoundTrip(ops[1..]);
      assert [ops[0]] + ops[1..] == ops;
    }
  }

  /** The four keys always present, none of them `focal_points`. */
  lemma ThumborKeysDistinct(r: Report)
    ensures forall j :: 0 <= j < 4 ==> ThumborMembers(r)[j].0 != "focal_points"
    ensures ThumborMembers(r)[0].0 == "source" && ThumborMembers(r)[1].0 == "operations"
    ensures ThumborMembers(r)[2].0 == "target" && ThumborMembers(r)[3].0 == "median_color"
  {
  }

  /** The `focal_points` member is present iff there is at least one focal
      point, and then it holds the points in order. */
  lemma FocalPointsPresentIff(r: Report)
    ensures Lookup(ThumborMembers(r), "focal_points").Some? <==> r.focalPoints != []
    ensures r.focalPoints != [] ==> Lookup(ThumborMembers(r), "focal_points") == Some(JArr(r.focalPoints))
  {
    var m := ThumborMembers(r);
    ThumborKeysDistinct(r);
    if r.focalPoints != [] {
      LookupAt(m, "focal_points", 4);
    } else {
      LookupMissing(m, "focal_points");
    }
  }

  /** Each of the four fixed members of the `"thumbor"` object is found by its key. */
  lemma ThumborFields(r: Report)
    ensures var t := ThumborMembers(r);
      Lookup(t, "source") == Some(t[0].1) && Lookup(t, "operations") == Some(t[1].1) &&
      Lookup(t, "target") == Some(t[2].1) && Lookup(t, "median_color") == Some(t[3].1)
  {
    var t := ThumborMembers(r);
    assert "source" != "operations" && "source" != "target" && "source" != "median_color";
    assert "operations" != "target" && "operations" != "median_color";
    assert "target" != "median_color";
    LookupAt(t, "operations", 1);
    LookupAt(t, "target", 2);
    LookupAt(t, "median_color", 3);
  }

  /** The `source` object holds the url and the source size. */
  lemma SourceFields(url: string, w: int, h: int)
    ensures var m := [("url", JStr(url)), ("width", JInt(w)), ("height", JInt(h))];
      StrField(m, "url") == Some(url) && IntField(m, "width") == Some(w) && IntField(m, "height") == Some(h)
  {
    var m := [("url", JStr(url)), ("width", JInt(w)), ("height", JInt(h))];
    assert "url" != "width" && "url" != "height";
    SizeFields(w, h);
    assert m[1..] == [("width", JInt(w)), ("height", JInt(h))];
  }

  /** The `median_color` object holds the hex text and the white percentage. */
  lemma MedianFields(hex: string, wp: real)
    ensures var m := [("hex", JStr(hex)), ("white_percent", JReal(wp))];
      StrField(m, "hex") == Some(hex) && Lookup(m, "white_percent") == Some(JReal(wp))
  {
    assert "hex" != "white_percent";
    LookupAt([("hex", JStr(hex)), ("white_percent", JReal(wp))], "white_percent", 1);
  }

  /** The rendered document holds everything reported: reading it back gives
      the report. */
  lemma RenderRoundTrip(r: Report)
    ensures Parse(Render(r)) == Some(r)
  {
    ThumborFields(r);
    FocalPointsPresentIff(r);
    OperationsRoundTrip(r.operations);
    SourceFields(r.url, r.width, r.height);
    SizeFields(r.target.0, r.target.1);
    MedianFields(r.hex, r.whitePercent);
  }

  // ---- Callback wrapping ----

  /** Python truthiness of `callback_name`: neither `None` nor the empty string. */
  predicate IsTruthy(name: Option<string>) {
    name.Some? && name.value != ""
  }

  /** The text `read` returns for document text `json`. */
  function Wrap(callback: Option<string>, json: string): (text: string)
    ensures !IsTruthy(callback) ==> text == json
    ensures IsTruthy(callback) ==>
      var n := |callback.value|;
      |text| == n + |json| + 3 &&
      text[..n] == callback.value && text[n] == '(' &&
      text[n + 1..|text| - 2] == json && text[|text| - 2..] == ");"
  {
    if IsTruthy(callback) then callback.value + "(" + json + ");" else json
  }

  /** The document text inside a returned text, if it has the shape `Wrap` gives. */
  function Unwrap(callback: Option<string>, text: string): Option<string> {
    if !IsTruthy(callback) then Some(text)
    else
      var n := |callback.value|;
      if |text| >= n + 3 && text[..n] == callback.value && text[n] == '('
         && text[|text| - 2..] == ");"
      then Some(text[n + 1..|text| - 2])
      else None
  }

  /** Wrapping loses nothing: the document text is recovered from the output. */
  lemma UnwrapWrap(callback: Option<string>, json: string)
    ensures Unwrap(callback, Wrap(callback, json)) == Some(json)
  {
  }

  /** And only wrapped texts unwrap: a text that unwraps to `json` is exactly
      the wrapping of `json`. */
  lemma WrapUnwrap(callback: Option<string>, text: string, json: string)
    requires Unwrap(callback, text) == Some(json)
    ensures Wrap(callback, json) == text
  {
  }
}
