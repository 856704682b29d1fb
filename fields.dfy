/**
 * Serializer fields: the geometry field's output formats, the URL argument
 * lookup of the Shareabouts fields, the fast `api_reverse` route builder and
 * the hyperlinked related and identity fields built on them.
 */
module Fields {
  import opened JsonValues
  import opened Strings

  // ---------------------------------------------------------------------
  // GeometryField

  datatype GeometryFormat = JsonFormat | WktFormat | DictFormat

  function FormatName(f: GeometryFormat): string
  {
    match f
    case JsonFormat => "json"
    case WktFormat => "wkt"
    case DictFormat => "dict"
  }

  /** GeometryField.__init__: only json, wkt and dict are accepted. */
  function GeometryFieldFormat(format: string): (r: Result<GeometryFormat>)
    ensures r.Success? <==> format in {"json", "wkt", "dict"}
    ensures r.Success? ==> FormatName(r.value) == format
    ensures r.Failure? ==> r.error.ValueError?
  {
    if format == "json" then Success(JsonFormat)
    else if format == "wkt" then Success(WktFormat)
    else if format == "dict" then Success(DictFormat)
    else Failure(ValueError("Invalid format: " + format))
  }

  /** Every format's name is accepted and names that format. */
  lemma FormatNamesAccepted(f: GeometryFormat)
    ensures GeometryFieldFormat(FormatName(f)) == Success(f)
  {
  }

  /** A stored geometry: its GeoJSON and WKT renderings. */
  datatype Geometry = Geometry(geoJson: string, wkt: string)

  /** GeometryField.to_representation. */
  function GeometryToRepresentation(f: GeometryFormat, g: Geometry, codec: Codec): (r: Result<Json>)
    ensures f.JsonFormat? ==> r == Success(JStr(g.geoJson))
    ensures f.WktFormat? ==> r == Success(JStr(g.wkt))
    ensures f.DictFormat? ==> (r.Success? <==> codec.loads(g.geoJson).Some?)
    ensures f.DictFormat? && r.Success? ==> Some(r.value) == codec.loads(g.geoJson)
  {
    match f
    case JsonFormat => Success(JStr(g.geoJson))
    case WktFormat => Success(JStr(g.wkt))
    case DictFormat =>
      match codec.loads(g.geoJson)
      case None => Failure(DecodeError)
      case Some(j) => Success(j)
  }

  /** What GeometryField.to_internal_value receives: a Python `str`, or anything else. */
  datatype GeometryInput = RawText(text: string) | Native(value: Json)

  /**
   * GeometryField.to_internal_value: non-text input is JSON-encoded first;
   * `geos` is the GEOSGeometry constructor, None when it raises.
   */
  function GeometryToInternalValue(data: GeometryInput, codec: Codec, geos: string -> Option<Geometry>)
    : (r: Result<Geometry>)
    ensures var text := if data.RawText? then data.text else codec.dumps(data.value);
      (r.Success? <==> geos(text).Some?) &&
      (r.Success? ==> r.value == geos(text).value) &&
      (r.Failure? ==> r.error.ValidationError?)
  {
    var text := if data.RawText? then data.text else codec.dumps(data.value);
    match geos(text)
    case None => Failure(ValidationError("Problem converting native data to Geometry"))
    case Some(g) => Success(g)
  }

  // ---------------------------------------------------------------------
  // ShareaboutsFieldMixin.get_url_kwargs

  /** The object a hyperlinked field links to. */
  datatype LinkedObject = LinkedObject(
    isUser: bool,              // an instance of the User model
    username: string,          // its username, when it is a user
    pk: Json,                  // obj.pk
    attrs: map<string, Json>)  // the attributes getattr finds

  /** The instance parameters: a user's own, else those the cache returns. */
  function InstanceKwargs(obj: LinkedObject, cached: map<string, Json>): (k: map<string, Json>)
    ensures obj.isUser ==> k == map["owner_username" := JStr(obj.username)]
    ensures !obj.isUser ==> k == cached
  {
    if obj.isUser then map["owner_username" := JStr(obj.username)] else cached
  }

  /** One URL argument: a non-None instance parameter, else the attribute. */
  function ResolveArg(instanceKwargs: map<string, Json>, obj: LinkedObject, name: string): (r: Option<Json>)
    ensures name in instanceKwargs && instanceKwargs[name] != JNull ==> r == Some(instanceKwargs[name])
    ensures !(name in instanceKwargs && instanceKwargs[name] != JNull) ==>
      r == (if name in obj.attrs then Some(obj.attrs[name]) else None)
  {
    if name in instanceKwargs && instanceKwargs[name] != JNull then Some(instanceKwargs[name])
    else if name in obj.attrs then Some(obj.attrs[name])
    else None
  }

  /**
   * The URL arguments of `names`, resolved one after the other: the first
   * name that resolves to nothing raises KeyError.
   */
  function UrlKwargs(ik: map<string, Json>, obj: LinkedObject, names: seq<string>): (r: Result<map<string, Json>>)
    ensures r.Failure? ==> r.error.KeyError?
    decreases |names|
  {
    if names == [] then Success(map[])
    else
      var n := names[|names| - 1];
      match UrlKwargs(ik, obj, names[..|names| - 1])
      case Failure(e) => Failure(e)
      case Success(m) =>
        match ResolveArg(ik, obj, n)
        case None => Failure(KeyError(n))
        case Some(v) => Success(m[n := v])
  }

  /** UrlKwargs succeeds exactly when every name resolves. */
  lemma {:induction false} UrlKwargsSucceeds(ik: map<string, Json>, obj: LinkedObject, names: seq<string>)
    ensures UrlKwargs(ik, obj, names).Success? <==> forall i :: 0 <= i < |names| ==> ResolveArg(ik, obj, names[i]).Some?
    decreases |names|
  {
    if names != [] {
      var k := |names| - 1;
      UrlKwargsSucceeds(ik, obj, names[..k]);
      assert forall i :: 0 <= i < k ==> names[i] == names[..k][i];
    }
  }

  /** A successful UrlKwargs holds exactly the names, each resolved. */
  lemma {:induction false} UrlKwargsKeys(ik: map<string, Json>, obj: LinkedObject, names: seq<string>)
    ensures var r := UrlKwargs(ik, obj, names);
      r.Success? ==>
        (forall n :: n in r.value <==> n in names) &&
        (forall n :: n in r.value ==> Some(r.value[n]) == ResolveArg(ik, obj, n))
    decreases |names|
  {
    if names != [] {
      var k := |names| - 1;
      UrlKwargsKeys(ik, obj, names[..k]);
      assert forall x :: x in names <==> x in names[..k] || x == names[k];
    }
  }

  /** A failed UrlKwargs is the KeyError of the first name that does not resolve. */
  lemma {:induction false} UrlKwargsFirstFailure(ik: map<string, Json>, obj: LinkedObject, names: seq<string>)
    ensures var r := UrlKwargs(ik, obj, names);
      r.Failure? ==>
        exists i :: 0 <= i < |names| && r.error == KeyError(names[i]) && ResolveArg(ik, obj, names[i]).None? &&
                    forall j :: 0 <= j < i ==> ResolveArg(ik, obj, names[j]).Some?
    decreases |names|
  {
    if names != [] {
      var k := |names| - 1;
      var front := names[..k];
      UrlKwargsFirstFailure(ik, obj, front);
      var r := UrlKwargs(ik, obj, front);
      if r.Failure? {
        var i :| 0 <= i < |front| && r.error == KeyError(front[i]) && ResolveArg(ik, obj, front[i]).None? &&
                 forall j :: 0 <= j < i ==> ResolveArg(ik, obj, front[j]).Some?;
        assert forall j :: 0 <= j <= i ==> names[j] == front[j];
      } else if ResolveArg(ik, obj, names[k]).None? {
        UrlKwargsSucceeds(ik, obj, front);
        assert forall j :: 0 <= j < k ==> names[j] == front[j];
        assert UrlKwargs(ik, obj, names).error == KeyError(names[k]);
      }
    }
  }

  /** Once a prefix of the names fails, every longer prefix fails the same way. */
  lemma {:induction false} UrlKwargsFailureStays(ik: map<string, Json>, obj: LinkedObject, names: seq<string>, i: int)
    requires 0 <= i <= |names| && UrlKwargs(ik, obj, names[..i]).Failure?
    ensures UrlKwargs(ik, obj, names) == UrlKwargs(ik, obj, names[..i])
    decreases |names| - i
  {
    if i < |names| {
      assert names[..i + 1][..i] == names[..i];
      UrlKwargsFailureStays(ik, obj, names, i + 1);
    } else {
      assert names[..i] == names;
    }
  }

  /** get_url_kwargs: exactly the url_arg_names keys, or KeyError for the first unresolved one. */
  method GetUrlKwargs(obj: LinkedObject, cached: map<string, Json>, urlArgNames: seq<string>)
    returns (r: Result<map<string, Json>>)
    ensures r == UrlKwargs(InstanceKwargs(obj, cached), obj, urlArgNames)
    ensures var ik := InstanceKwargs(obj, cached);
      r.Success? <==> forall i :: 0 <= i < |urlArgNames| ==> ResolveArg(ik, obj, urlArgNames[i]).Some?
    ensures var ik := InstanceKwargs(obj, cached);
      r.Success? ==>
        (forall n :: n in r.value <==> n in urlArgNames) &&
        (forall n :: n in r.value ==> Some(r.value[n]) == ResolveArg(ik, obj, n))
    ensures var ik := InstanceKwargs(obj, cached);
      r.Failure? ==>
        exists i :: 0 <= i < |urlArgNames| && r.error == KeyError(urlArgNames[i]) &&
                    ResolveArg(ik, obj, urlArgNames[i]).None? &&
                    forall j :: 0 <= j < i ==> ResolveArg(ik, obj, urlArgNames[j]).Some?
  {
    var instanceKwargs := InstanceKwargs(obj, cached);
    var urlKwargs: map<string, Json> := map[];
    UrlKwargsSucceeds(instanceKwargs, obj, urlArgNames);
    UrlKwargsKeys(instanceKwargs, obj, urlArgNames);
    UrlKwargsFirstFailure(instanceKwargs, obj, urlArgNames);
    for i := 0 to |urlArgNames|
      invariant UrlKwargs(instanceKwargs, obj, urlArgNames[..i]) == Success(urlKwargs)
    {
      var argName := urlArgNames[i];
      assert urlArgNames[..i + 1][..i] == urlArgNames[..i] && urlArgNames[..i + 1][i] == argName;
      var argValue := if argName in instanceKwargs then instanceKwargs[argName] else JNull;
      if argValue == JNull {
        if argName !in obj.attrs {
          UrlKwargsFailureStays(instanceKwargs, obj, urlArgNames, i + 1);
          return Failure(KeyError(argName));
        }
        argValue := obj.attrs[argName];
      }
      urlKwargs := urlKwargs[argName := argValue];
    }
    assert urlArgNames[..|urlArgNames|] == urlArgNames;
    return Success(urlKwargs);
  }

  /** A user linked by UserRelatedField yields only owner_username, its username. */
  lemma {:induction false} UserLinksByUsername(obj: LinkedObject, cached: map<string, Json>)
    requires obj.isUser
    ensures ResolveArg(InstanceKwargs(obj, cached), obj, "owner_username") == Some(JStr(obj.username))
  {
  }

  // ---------------------------------------------------------------------
  // api_reverse

  /** A route template, cut at its `{name}` placeholders. */
  datatype Piece = Lit(text: string) | Hole(name: string)

  const Owner := Hole("owner_username")
  const Slug := Hole("dataset_slug")
  const PlaceId := Hole("place_id")
  const SetName := Hole("submission_set_name")

  /** The route table of api_reverse. */
  const Routes: map<string, seq<Piece>> := map[
    "submission-detail" := [Lit("/"), Owner, Lit("/datasets/"), Slug, Lit("/places/"), PlaceId, Lit("/"), SetName,
                            Lit("/"), Hole("submission_id")],
    "submission-list" := [Lit("/"), Owner, Lit("/datasets/"), Slug, Lit("/places/"), PlaceId, Lit("/"), SetName],
    "place-detail" := [Lit("/"), Owner, Lit("/datasets/"), Slug, Lit("/places/"), PlaceId],
    "place-list" := [Lit("/"), Owner, Lit("/datasets/"), Slug, Lit("/places")],
    "place-tag-list" := [Lit("/"), Owner, Lit("/datasets/"), Slug, Lit("/places/"), PlaceId, Lit("/tags")],
    "dataset-detail" := [Lit("/"), Owner, Lit("/datasets/"), Slug],
    "user-detail" := [Lit("/"), Owner],
    "dataset-submission-list" := [Lit("/"), Owner, Lit("/datasets/"), Slug, Lit("/"), SetName],
    "attachment-detail" := [Lit("/"), Owner, Lit("/datasets/"), Slug, Lit("/places/"), PlaceId, Lit("/attachments/"),
                            Hole("attachment_id")]]

  /** `template.format(**params)`: KeyError for the first placeholder without a value. */
  function Fill(pieces: seq<Piece>, params: map<string, string>): (r: Result<string>)
    ensures r.Success? <==> forall i :: 0 <= i < |pieces| && pieces[i].Hole? ==> pieces[i].name in params
    ensures r.Failure? ==> exists i :: 0 <= i < |pieces| && pieces[i].Hole? && pieces[i].name !in params &&
                                       r.error == KeyError(pieces[i].name) &&
                                       forall j :: 0 <= j < i && pieces[j].Hole? ==> pieces[j].name in params
  {
    if pieces == [] then Success("")
    else
      var head := match pieces[0]
        case Lit(t) => Success(t)
        case Hole(n) => if n in params then Success(params[n]) else Failure(KeyError(n));
      if head.Failure? then Failure(head.error)
      else match Fill(pieces[1..], params)
        case Failure(e) =>
          assert forall j :: 1 <= j < |pieces| ==> pieces[j] == pieces[1..][j - 1];
          Failure(e)
        case Success(rest) => Success(head.value + rest)
  }

  /** Filling a template replaces each placeholder, in place, by its value. */
  lemma {:induction false} FillReplacesHoles(pieces: seq<Piece>, params: map<string, string>,
                                             before: seq<Piece>, name: string, after: seq<Piece>)
    requires pieces == before + [Hole(name)] + after
    requires Fill(pieces, params).Success?
    ensures Fill(before, params).Success? && Fill(after, params).Success?
    ensures name in params
    ensures Fill(pieces, params).value == Fill(before, params).value + params[name] + Fill(after, params).value
    decreases |before|
  {
    if before == [] {
      assert pieces[0] == Hole(name) && pieces[1..] == after;
    } else {
      assert pieces[0] == before[0];
      assert pieces[1..] == before[1..] + [Hole(name)] + after;
      FillReplacesHoles(pieces[1..], params, before[1..], name, after);
    }
  }

  /** The scheme and host of the request being answered. */
  datatype Host = Host(scheme: string, host: string)

  function Prefix(request: Option<Host>): (p: string)
    ensures request.Some? ==> p == request.value.scheme + "://" + request.value.host + "/api/v2"
    ensures request.None? ==> p == "/api/v2"
  {
    if request.Some? then request.value.scheme + "://" + request.value.host + "/api/v2" else "/api/v2"
  }

  /** The url-quoted parameters; `quote` is urlquote_plus. */
  function Quoted(kwargs: map<string, string>, quote: string -> string): map<string, string>
  {
    map k | k in kwargs :: quote(kwargs[k])
  }

  /** api_reverse. */
  function ApiReverse(viewName: string, kwargs: map<string, string>, request: Option<Host>,
                      format: Option<string>, quote: string -> string): (r: Result<string>)
    ensures viewName !in Routes ==> r.Failure? && r.error.ValueError?
    ensures viewName in Routes && Fill(Routes[viewName], Quoted(kwargs, quote)).Failure? ==>
      r == Failure(Fill(Routes[viewName], Quoted(kwargs, quote)).error)
    ensures viewName in Routes && Fill(Routes[viewName], Quoted(kwargs, quote)).Success? ==>
      var path := Fill(Routes[viewName], Quoted(kwargs, quote)).value;
      r == Success(Prefix(request) + path + (if format.Some? then "." + format.value else ""))
  {
    if viewName !in Routes then Failure(ValueError("No API route named " + viewName + " formatted."))
    else
      var filled := Fill(Routes[viewName], Quoted(kwargs, quote));
      if filled.Failure? then Failure(filled.error)
      else Success(Prefix(request) + filled.value + (if format.Some? then "." + format.value else ""))
  }

  /** A format, even "", appends '.' and the format to the URL without one. */
  lemma {:induction false} FormatSuffix(viewName: string, kwargs: map<string, string>, request: Option<Host>,
                                        f: string, quote: string -> string)
    requires ApiReverse(viewName, kwargs, request, None, quote).Success?
    ensures ApiReverse(viewName, kwargs, request, Some(f), quote) ==
            Success(ApiReverse(viewName, kwargs, request, None, quote).value + "." + f)
  {
    var path := Fill(Routes[viewName], Quoted(kwargs, quote)).value;
    assert Prefix(request) + path + ("." + f) == (Prefix(request) + path + "") + "." + f;
  }

  /** For example, the tag views are not in the route table, so api_reverse refuses them. */
  lemma {:induction false} UnknownViewRefused(kwargs: map<string, string>, request: Option<Host>,
                                              format: Option<string>, quote: string -> string)
    ensures ApiReverse("tag-detail", kwargs, request, format, quote).Failure?
    ensures ApiReverse("place-tag-detail", kwargs, request, format, quote).Failure?
  {
    assert "tag-detail" !in Routes;
    assert "place-tag-detail" !in Routes;
  }

  /** Filling a template whose first piece yields `head`. */
  lemma FillStep(pieces: seq<Piece>, params: map<string, string>, head: string)
    requires pieces != []
    requires pieces[0] == Lit(head) || (pieces[0].Hole? && pieces[0].name in params && params[pieces[0].name] == head)
    requires Fill(pieces[1..], params).Success?
    ensures Fill(pieces, params) == Success(head + Fill(pieces[1..], params).value)
  {
  }

  /** The path of a place: the owner, the dataset slug and the place id between the fixed parts. */
  lemma PlaceDetailPath(q: map<string, string>)
    requires "owner_username" in q && "dataset_slug" in q && "place_id" in q
    ensures Fill(Routes["place-detail"], q) ==
      Success("/" + (q["owner_username"] + ("/datasets/" + (q["dataset_slug"] + ("/places/" + q["place_id"])))))
  {
    var t := Routes["place-detail"];
    assert t == [Lit("/"), Owner, Lit("/datasets/"), Slug, Lit("/places/"), PlaceId];
    assert t[5..][1..] == [];
    assert Fill(t[5..][1..], q) == Success("");
    FillStep(t[5..], q, q["place_id"]);
    assert q["place_id"] + "" == q["place_id"];
    assert t[4..][1..] == t[5..];
    FillStep(t[4..], q, "/places/");
    assert t[3..][1..] == t[4..];
    FillStep(t[3..], q, q["dataset_slug"]);
    assert t[2..][1..] == t[3..];
    FillStep(t[2..], q, "/datasets/");
    assert t[1..][1..] == t[2..];
    FillStep(t[1..], q, q["owner_username"]);
    FillStep(t, q, "/");
  }

  /** Without a format suffix, a route's URL is the prefix followed by its filled template. */
  lemma ReverseWithoutFormat(viewName: string, kwargs: map<string, string>, request: Option<Host>,
                             quote: string -> string, path: string)
    requires viewName in Routes && Fill(Routes[viewName], Quoted(kwargs, quote)) == Success(path)
    ensures ApiReverse(viewName, kwargs, request, None, quote) == Success(Prefix(request) + path)
  {
    assert Prefix(request) + path + "" == Prefix(request) + path;
  }

  /** A place's URL: the owner, the dataset slug and the place id, each quoted, after the prefix. */
  lemma PlaceDetailUrl(kwargs: map<string, string>, request: Option<Host>, quote: string -> string)
    requires "owner_username" in kwargs && "dataset_slug" in kwargs && "place_id" in kwargs
    ensures ApiReverse("place-detail", kwargs, request, None, quote) ==
      Success(Prefix(request) + "/" + quote(kwargs["owner_username"]) + "/datasets/" +
              quote(kwargs["dataset_slug"]) + "/places/" + quote(kwargs["place_id"]))
  {
    var q := Quoted(kwargs, quote);
    var o, d, i := quote(kwargs["owner_username"]), quote(kwargs["dataset_slug"]), quote(kwargs["place_id"]);
    assert q["owner_username"] == o && q["dataset_slug"] == d && q["place_id"] == i;
    PlaceDetailPath(q);
    var path := "/" + (o + ("/datasets/" + (d + ("/places/" + i))));
    ReverseWithoutFormat("place-detail", kwargs, request, quote, path);
    var p := Prefix(request);
    assert p + path == p + "/" + o + "/datasets/" + d + "/places/" + i;
  }

  /** The URL of a route starts with the prefix, and a missing argument is a KeyError. */
  lemma {:induction false} RouteNeedsItsArguments(viewName: string, kwargs: map<string, string>,
                                                  request: Option<Host>, format: Option<string>,
                                                  quote: string -> string, i: int)
    requires viewName in Routes && 0 <= i < |Routes[viewName]|
    ensures ApiReverse(viewName, kwargs, request, format, quote).Success? ==>
      StartsWith(ApiReverse(viewName, kwargs, request, format, quote).value, Prefix(request))
    ensures Routes[viewName][i].Hole? && Routes[viewName][i].name !in kwargs ==>
      ApiReverse(viewName, kwargs, request, format, quote).Failure? &&
      ApiReverse(viewName, kwargs, request, format, quote).error.KeyError?
  {
    var r := ApiReverse(viewName, kwargs, request, format, quote);
    if r.Success? {
      var path := Fill(Routes[viewName], Quoted(kwargs, quote)).value;
      var rest := path + (if format.Some? then "." + format.value else "");
      assert r.value == Prefix(request) + rest;
      assert r.value[..|Prefix(request)|] == Prefix(request);
    }
  }

  // ---------------------------------------------------------------------
  // ShareaboutsRelatedField / ShareaboutsIdentityField.to_representation

  /** Python's `a if a else b` for optional text. */
  function OrElse(a: Option<string>, b: Option<string>): (r: Option<string>)
    ensures a.Some? && a.value != "" ==> r == a
    ensures !(a.Some? && a.value != "") ==> r == b
  {
    if a.Some? && a.value != "" then a else b
  }

  predicate IsSet(o: Option<string>)
  {
    o.Some? && o.value != ""
  }

  /** The format a related field passes on: the argument, else its own, else the context's. */
  function RelatedFieldFormat(formatArg: Option<string>, fieldFormat: Option<string>,
                              contextFormat: Option<string>): (r: Option<string>)
    ensures IsSet(formatArg) ==> r == formatArg
    ensures !IsSet(formatArg) && IsSet(fieldFormat) ==> r == fieldFormat
    ensures !IsSet(formatArg) && !IsSet(fieldFormat) ==> r == contextFormat
  {
    OrElse(formatArg, OrElse(fieldFormat, contextFormat))
  }

  /** The format an identity field passes on: its own wins over a different one that is set. */
  function IdentityFieldFormat(formatArg: Option<string>, fieldFormat: Option<string>,
                               contextFormat: Option<string>): (r: Option<string>)
    ensures var f := OrElse(formatArg, contextFormat);
      (IsSet(f) && IsSet(fieldFormat) ==> r == fieldFormat) &&
      (!(IsSet(f) && IsSet(fieldFormat)) ==> r == f)
  {
    var f := OrElse(formatArg, contextFormat);
    if IsSet(f) && IsSet(fieldFormat) && fieldFormat != f then fieldFormat else f
  }

  /** An identity field's own format never turns a missing format into one. */
  lemma {:induction false} IdentityFormatNeedsAFormat(fieldFormat: Option<string>)
    requires IsSet(fieldFormat)
    ensures IdentityFieldFormat(None, fieldFormat, None) == None
    ensures RelatedFieldFormat(None, fieldFormat, None) == fieldFormat
  {
  }

  /** A hyperlinked field's declaration. */
  datatype LinkField = LinkField(viewName: string, urlArgNames: seq<string>, format: Option<string>)

  /** The request and format a call passes in, and those in the serializer context. */
  datatype LinkContext = LinkContext(
    requestArg: Option<Host>, formatArg: Option<string>,
    contextRequest: Option<Host>, contextFormat: Option<string>)

  /** The resolved URL arguments as text; `text` is the conversion urlquote_plus applies. */
  function TextKwargs(kwargs: map<string, Json>, text: Json -> string): (t: map<string, string>)
    ensures t.Keys == kwargs.Keys
    ensures forall k :: k in kwargs ==> t[k] == text(kwargs[k])
  {
    map k | k in kwargs :: text(kwargs[k])
  }

  /** The URL of `obj` from kwargs already resolved and turned into text. */
  function LinkUrl(field: LinkField, kwargs: map<string, string>, ctx: LinkContext,
                   format: Option<string>, quote: string -> string): Result<string>
  {
    ApiReverse(field.viewName, kwargs, if ctx.requestArg.Some? then ctx.requestArg else ctx.contextRequest,
               format, quote)
  }

  /**
   * ShareaboutsRelatedField.to_representation: None for an unsaved object,
   * else the URL. `text` turns a URL argument into text.
   */
  method RelatedToRepresentation(field: LinkField, obj: LinkedObject, cached: map<string, Json>,
                                 ctx: LinkContext, quote: string -> string, text: Json -> string)
    returns (r: Result<Option<string>>)
    ensures obj.pk == JNull ==> r == Success(None)
    ensures var kwargs := UrlKwargs(InstanceKwargs(obj, cached), obj, field.urlArgNames);
      obj.pk != JNull && kwargs.Failure? ==> r == Failure(kwargs.error)
    ensures var kwargs := UrlKwargs(InstanceKwargs(obj, cached), obj, field.urlArgNames);
      obj.pk != JNull && kwargs.Success? ==>
        var url := LinkUrl(field, TextKwargs(kwargs.value, text), ctx,
                           RelatedFieldFormat(ctx.formatArg, field.format, ctx.contextFormat), quote);
        (url.Failure? ==> r == Failure(url.error)) && (url.Success? ==> r == Success(Some(url.value)))
  {
    var format := RelatedFieldFormat(ctx.formatArg, field.format, ctx.contextFormat);
    if obj.pk == JNull {
      return Success(None);
    }
    var kwargs := GetUrlKwargs(obj, cached, field.urlArgNames);
    if kwargs.Failure? {
      return Failure(kwargs.error);
    }
    var textKwargs := TextKwargs(kwargs.value, text);
    var url := LinkUrl(field, textKwargs, ctx, format, quote);
    if url.Failure? {
      return Failure(url.error);
    }
    return Success(Some(url.value));
  }

  /** `self.view_name or self.parent.opts.view_name`. */
  function IdentityLinkField(field: LinkField, parentViewName: string): (f: LinkField)
    ensures f.urlArgNames == field.urlArgNames && f.format == field.format
    ensures f.viewName == if field.viewName != "" then field.viewName else parentViewName
  {
    field.(viewName := if field.viewName != "" then field.viewName else parentViewName)
  }

  /** ShareaboutsIdentityField.to_representation; `parentViewName` is the parent's view name. */
  method IdentityToRepresentation(field: LinkField, parentViewName: string, obj: LinkedObject,
                                  cached: map<string, Json>, ctx: LinkContext,
                                  quote: string -> string, text: Json -> string)
    returns (r: Result<Option<string>>)
    ensures obj.pk == JNull ==> r == Success(None)
    ensures var kwargs := UrlKwargs(InstanceKwargs(obj, cached), obj, field.urlArgNames);
      obj.pk != JNull && kwargs.Failure? ==> r == Failure(kwargs.error)
    ensures var kwargs := UrlKwargs(InstanceKwargs(obj, cached), obj, field.urlArgNames);
      obj.pk != JNull && kwargs.Success? ==>
        var url := LinkUrl(IdentityLinkField(field, parentViewName), TextKwargs(kwargs.value, text), ctx,
                           IdentityFieldFormat(ctx.formatArg, field.format, ctx.contextFormat), quote);
        (url.Failure? ==> r == Failure(url.error)) && (url.Success? ==> r == Success(Some(url.value)))
  {
    if obj.pk == JNull {
      return Success(None);
    }
    var format := IdentityFieldFormat(ctx.formatArg, field.format, ctx.contextFormat);
    var kwargs := GetUrlKwargs(obj, cached, field.urlArgNames);
    if kwargs.Failure? {
      return Failure(kwargs.error);
    }
    var textKwargs := TextKwargs(kwargs.value, text);
    var url := LinkUrl(IdentityLinkField(field, parentViewName), textKwargs, ctx, format, quote);
    if url.Failure? {
      return Failure(url.error);
    }
    return Success(Some(url.value));
  }
}
