/**
 * Response renderers: the CSV renderer's unwrapping of paginated pages, the
 * GeoJSON renderer's conversion of place dictionaries into features and
 * feature collections, and the JSON renderer that writes None as `null`.
 * Each renderer is modelled up to the value it hands to the underlying
 * encoder; the encoders themselves are parameters.
 */
module Renderers {
  import opened JsonValues
  import opened Strings

  // ---------------------------------------------------------------------
  // PaginatedCSVRenderer

  /** Python's `a or b`. */
  function Or(a: Json, b: Json): (r: Json)
    ensures Truthy(a) ==> r == a
    ensures !Truthy(a) ==> r == b
  {
    if Truthy(a) then a else b
  }

  /** The rows PaginatedCSVRenderer hands to the CSV writer. */
  function CsvRows(data: Json): (r: Result<Json>)
    ensures data.JList? ==> r == Success(data)
    ensures data.JDict? ==> r == Success(Or(Get(data.fields, "results"), Get(data.fields, "features")))
    ensures !data.JList? && !data.JDict? ==> r.Failure?
  {
    match data
    case JList(_) => Success(data)
    case JDict(d) => Success(Or(Get(d, "results"), Get(d, "features")))
    case _ => Failure(TypeError("no attribute get"))
  }

  /** A page's non-empty results are its rows; a feature collection's features are used otherwise. */
  lemma CsvRowsOfPages(page: Dict, results: seq<Json>, features: seq<Json>)
    ensures results != [] ==>
      CsvRows(JDict(page["results" := JList(results)])) == Success(JList(results))
    ensures "results" !in page ==>
      CsvRows(JDict(page["features" := JList(features)])) == Success(JList(features))
    ensures "results" !in page && "features" !in page ==> CsvRows(JDict(page)) == Success(JNull)
  {
  }

  // ---------------------------------------------------------------------
  // GeoJSONRenderer

  const GeometryField := "geometry"
  const IdField := "id"

  /**
   * get_feature on a dict: None without a geometry, otherwise a Feature whose
   * properties are the other keys, whose geometry is decoded through
   * `geoJson` (GEOSGeometry(...).json then json.loads) when it is text, and
   * which carries the id when the dict's id is not None.
   */
  function GetFeature(d: Dict, geoJson: string -> Result<Json>): (r: Result<Option<Dict>>)
    ensures GeometryField !in d ==> r == Success(None)
    ensures GeometryField in d && r.Success? ==> r.value.Some?
    ensures r.Failure? <==> GeometryField in d && d[GeometryField].JStr? && geoJson(d[GeometryField].s).Failure?
    ensures r.Failure? ==> GeometryField in d && d[GeometryField].JStr? && geoJson(d[GeometryField].s).Failure?
    ensures r.Success? && r.value.Some? ==>
      var f := r.value.value;
      GeometryField in d &&
      f.Keys == {"type", "geometry", "properties"} + (if Get(d, IdField) != JNull then {"id"} else {}) &&
      f["type"] == JStr("Feature") &&
      f["properties"] == JDict(d - {GeometryField}) &&
      (!d[GeometryField].JStr? ==> f["geometry"] == d[GeometryField]) &&
      (d[GeometryField].JStr? ==> Success(f["geometry"]) == geoJson(d[GeometryField].s)) &&
      ("id" in f ==> f["id"] == d[IdField])
  {
    if GeometryField !in d then Success(None)
    else
      var props := d - {GeometryField};
      var geometry := d[GeometryField];
      var featureId := Get(props, IdField);
      var converted := if geometry.JStr? then geoJson(geometry.s) else Success(geometry);
      if converted.Failure? then Failure(converted.error)
      else
        var feature := map["type" := JStr("Feature"), "geometry" := converted.value,
                           "properties" := JDict(props)];
        if featureId != JNull then Success(Some(feature["id" := featureId])) else Success(Some(feature))
  }

  /**
   * `self.get_feature(elem) or elem` for any value: `'geometry' in elem` is a
   * key test on a dict, a membership test on a list and a substring test on
   * text, and raises on anything else; only a dict can then be copied.
   */
  function FeatureOrSelf(elem: Json, geoJson: string -> Result<Json>): (r: Result<Json>)
    ensures elem.JDict? && GeometryField !in elem.fields ==> r == Success(elem)
    ensures elem.JDict? && GetFeature(elem.fields, geoJson).Success? && GeometryField in elem.fields ==>
      r == Success(JDict(GetFeature(elem.fields, geoJson).value.value))
    ensures elem.JDict? && GetFeature(elem.fields, geoJson).Failure? ==>
      r == Failure(GetFeature(elem.fields, geoJson).error)
    ensures elem.JList? ==> (r.Success? <==> JStr(GeometryField) !in elem.items) && (r.Success? ==> r == Success(elem))
    ensures elem.JStr? ==> (r.Success? <==> !Contains(elem.s, GeometryField)) && (r.Success? ==> r == Success(elem))
    ensures elem.JNull? || elem.JBool? || elem.JInt? ==> r.Failure?
  {
    match elem
    case JDict(d) =>
      (match GetFeature(d, geoJson)
       case Failure(e) => Failure(e)
       case Success(None) => Success(elem)
       case Success(Some(f)) => Success(JDict(f)))
    case JList(items) => if JStr(GeometryField) in items then Failure(TypeError("no attribute copy")) else Success(elem)
    case JStr(s) => if Contains(s, GeometryField) then Failure(TypeError("no attribute copy")) else Success(elem)
    case _ => Failure(TypeError("argument is not iterable"))
  }

  /** The list comprehension over a feature list: the first failure escapes. */
  function Features(items: seq<Json>, geoJson: string -> Result<Json>): (r: Result<seq<Json>>)
    ensures r.Success? <==> forall i :: 0 <= i < |items| ==> FeatureOrSelf(items[i], geoJson).Success?
    ensures r.Success? ==> (|r.value| == |items| &&
      forall i :: 0 <= i < |items| ==> Success(r.value[i]) == FeatureOrSelf(items[i], geoJson))
  {
    if items == [] then Success([])
    else
      match FeatureOrSelf(items[0], geoJson)
      case Failure(e) => Failure(e)
      case Success(first) =>
        match Features(items[1..], geoJson)
        case Failure(e) =>
          assert !FeatureOrSelf(items[1..][FailingAt(items[1..], geoJson)], geoJson).Success?;
          Failure(e)
        case Success(rest) =>
          assert forall i :: 1 <= i < |items| ==> items[i] == items[1..][i - 1];
          Success([first] + rest)
  }

  /** An element of `items` that Features fails on (the witness of the failure). */
  function FailingAt(items: seq<Json>, geoJson: string -> Result<Json>): (i: nat)
    requires exists i :: 0 <= i < |items| && FeatureOrSelf(items[i], geoJson).Failure?
    ensures i < |items| && FeatureOrSelf(items[i], geoJson).Failure?
  {
    if FeatureOrSelf(items[0], geoJson).Failure? then 0
    else
      assert exists i :: 0 <= i < |items[1..]| && FeatureOrSelf(items[1..][i], geoJson).Failure? by {
        var i :| 0 <= i < |items| && FeatureOrSelf(items[i], geoJson).Failure?;
        assert items[1..][i - 1] == items[i];
      }
      1 + FailingAt(items[1..], geoJson)
  }

  /** The one-character strings that iterating over a text yields, in order. */
  function Characters(s: string): (r: seq<Json>)
    ensures |r| == |s|
    ensures forall i :: 0 <= i < |s| ==> r[i] == JStr([s[i]])
  {
    seq(|s|, i requires 0 <= i < |s| => JStr([s[i]]))
  }

  /** A one-character text never contains "geometry", so each character is kept as it is. */
  lemma {:induction false} CharactersAreKept(s: string, geoJson: string -> Result<Json>)
    ensures Features(Characters(s), geoJson) == Success(Characters(s))
  {
    var cs := Characters(s);
    forall i | 0 <= i < |cs|
      ensures FeatureOrSelf(cs[i], geoJson) == Success(cs[i])
    {
      assert |cs[i].s| == 1;
    }
    var r := Features(cs, geoJson);
    assert r.Success?;
    assert r.value == cs;
  }

  /** The status is not an error: the response is rendered as GeoJSON. */
  predicate Rendered(status: Option<int>)
  {
    !(status.Some? && status.value >= 400)
  }

  /** A FeatureCollection dict, recognised by its "type". */
  predicate IsFeatureCollection(data: Json)
  {
    data.JDict? && Get(data.fields, "type") == JStr("FeatureCollection")
  }

  /**
   * GeoJSONRenderer.render, up to the value passed to the JSON encoder:
   * error responses are untouched, a list becomes a FeatureCollection, a
   * FeatureCollection has its features converted, None stays None and any
   * other value is converted on its own. The features of a collection are
   * iterated as Python iterates them: a list by its elements, a text by its
   * characters; any other value is refused (see README for dicts).
   */
  function GeoJsonValue(data: Json, status: Option<int>, geoJson: string -> Result<Json>): (r: Result<Json>)
    ensures !Rendered(status) ==> r == Success(data)
    ensures Rendered(status) && data.JNull? ==> r == Success(JNull)
    ensures Rendered(status) && data.JList? ==>
      (r.Success? <==> Features(data.items, geoJson).Success?) &&
      (r.Success? ==> r.value == JDict(map["type" := JStr("FeatureCollection"),
                                           "features" := JList(Features(data.items, geoJson).value)]))
    ensures Rendered(status) && IsFeatureCollection(data) && "features" !in data.fields ==>
      r == Failure(KeyError("features"))
    ensures Rendered(status) && IsFeatureCollection(data) && "features" in data.fields &&
            data.fields["features"].JList? ==>
      var converted := Features(data.fields["features"].items, geoJson);
      (r.Success? <==> converted.Success?) &&
      (r.Success? ==> r.value == JDict(data.fields["features" := JList(converted.value)]))
    ensures Rendered(status) && IsFeatureCollection(data) && "features" in data.fields &&
            data.fields["features"].JStr? ==>
      r == Success(JDict(data.fields["features" := JList(Characters(data.fields["features"].s))]))
    ensures Rendered(status) && !data.JNull? && !data.JList? && !IsFeatureCollection(data) ==>
      r == FeatureOrSelf(data, geoJson)
  {
    if status.Some? && status.value >= 400 then Success(data)
    else
      match data
      case JList(items) =>
        (match Features(items, geoJson)
         case Failure(e) => Failure(e)
         case Success(features) =>
           Success(JDict(map["type" := JStr("FeatureCollection"), "features" := JList(features)])))
      case JDict(d) =>
        if Get(d, "type") == JStr("FeatureCollection") then
          if "features" !in d then Failure(KeyError("features"))
          else if d["features"].JStr? then
            CharactersAreKept(d["features"].s, geoJson);
            match Features(Characters(d["features"].s), geoJson)
            case Failure(e) => Failure(e)
            case Success(features) => Success(JDict(d["features" := JList(features)]))
          else if !d["features"].JList? then Failure(TypeError("features is not iterable"))
          else
            (match Features(d["features"].items, geoJson)
             case Failure(e) => Failure(e)
             case Success(features) => Success(JDict(d["features" := JList(features)])))
        else FeatureOrSelf(data, geoJson)
      case JNull => Success(JNull)
      case _ => FeatureOrSelf(data, geoJson)
  }

  /** A successful list rendering is a FeatureCollection with one feature per element, in order. */
  lemma ListBecomesFeatureCollection(items: seq<Json>, status: Option<int>, geoJson: string -> Result<Json>)
    requires !(status.Some? && status.value >= 400)
    requires GeoJsonValue(JList(items), status, geoJson).Success?
    ensures var r := GeoJsonValue(JList(items), status, geoJson).value;
      r.JDict? && r.fields.Keys == {"type", "features"} &&
      r.fields["type"] == JStr("FeatureCollection") && r.fields["features"].JList? &&
      |r.fields["features"].items| == |items| &&
      forall i :: 0 <= i < |items| ==> Success(r.fields["features"].items[i]) == FeatureOrSelf(items[i], geoJson)
  {
  }

  /**
   * A FeatureCollection keeps all of its other members, and its features
   * are its old features converted one by one, in order.
   */
  lemma FeatureCollectionKeepsMembers(d: Dict, status: Option<int>, geoJson: string -> Result<Json>)
    requires !(status.Some? && status.value >= 400)
    requires Get(d, "type") == JStr("FeatureCollection") && "features" in d && d["features"].JList?
    requires GeoJsonValue(JDict(d), status, geoJson).Success?
    ensures var r := GeoJsonValue(JDict(d), status, geoJson).value;
      var old_features := d["features"].items;
      r.JDict? && r.fields.Keys == d.Keys &&
      (forall k :: k in d && k != "features" ==> r.fields[k] == d[k]) &&
      r.fields["features"].JList? && |r.fields["features"].items| == |old_features| &&
      forall i :: 0 <= i < |old_features| ==>
        Success(r.fields["features"].items[i]) == FeatureOrSelf(old_features[i], geoJson)
  {
  }

  /** A feature's properties with the geometry put back are the dict it came from. */
  lemma FeatureKeepsProperties(d: Dict, geoJson: string -> Result<Json>)
    requires GetFeature(d, geoJson).Success? && GetFeature(d, geoJson).value.Some?
    ensures var f := GetFeature(d, geoJson).value.value;
      f["properties"].JDict? && f["properties"].fields[GeometryField := d[GeometryField]] == d
  {
    var p := d - {GeometryField};
    assert p[GeometryField := d[GeometryField]] == d;
  }

  // ---------------------------------------------------------------------
  // NullJSONRenderer

  /** NullJSONRenderer.render: None is written as `null`, anything else by `encode`. */
  function NullJsonText(data: Json, encode: Json -> string): (r: string)
    ensures data.JNull? ==> r == "null"
    ensures !data.JNull? ==> r == encode(data)
  {
    if data.JNull? then "null" else encode(data)
  }

  /** With a codec that round-trips and reads `null` as None, every rendering decodes to its data. */
  lemma NullJsonTextDecodes(c: Codec, data: Json)
    requires RoundTrips(c) && c.loads("null") == Some(JNull)
    ensures c.loads(NullJsonText(data, c.dumps)) == Some(data)
  {
    if !data.JNull? {
      assert c.loads(c.dumps(data)) == Some(data);
    }
  }
}
