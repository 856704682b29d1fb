/**
 * The serializer mixins behind the schemaless data model: the "silent save"
 * decision, the stand-in object for a missing instance, the split of an
 * incoming key/value map into model fields and a JSON data blob (with full
 * and partial update semantics), the reverse explosion of the blob into the
 * representation, and the unknown-field check of form-module serializers.
 */
module SerializerMixins {
  import opened JsonValues
  import opened Strings

  // ---------------------------------------------------------------------
  // ActivityGenerator.save

  const SilentHeader := "HTTP_X_SHAREABOUTS_SILENT"
  const RefererHeader := "HTTP_REFERER"
  const SilentSpellings: set<string> := {"true", "t", "yes", "y"}

  /** The keyword arguments ActivityGenerator.save adds to the model save. */
  datatype SaveArguments = SaveArguments(silent: bool, source: string)

  function HeaderOr(meta: map<string, string>, name: string, default: string): string
  {
    if name in meta then meta[name] else default
  }

  /** ActivityGenerator.save: the save is silent by argument or by header. */
  function SaveArgumentsFor(silent: bool, meta: map<string, string>): (r: SaveArguments)
    ensures silent ==> r.silent
    ensures !silent ==> (r.silent <==> Lower(HeaderOr(meta, SilentHeader, "False")) in SilentSpellings)
    ensures RefererHeader in meta ==> r.source == meta[RefererHeader]
    ensures RefererHeader !in meta ==> r.source == ""
  {
    var header := HeaderOr(meta, SilentHeader, "False");
    var s := if !silent then Lower(header) in SilentSpellings else silent;
    SaveArguments(s, HeaderOr(meta, RefererHeader, ""))
  }

  /** For example: "YES" and "True" silence a save; no header, or "no", does not. */
  lemma {:induction false} SilentHeaderSpellings(meta: map<string, string>)
    ensures SaveArgumentsFor(false, meta[SilentHeader := "YES"]).silent
    ensures SaveArgumentsFor(false, meta[SilentHeader := "True"]).silent
    ensures !SaveArgumentsFor(false, meta - {SilentHeader}).silent
    ensures !SaveArgumentsFor(false, meta[SilentHeader := "no"]).silent
  {
    assert Lower("YES") == "yes";
    assert Lower("True") == "true";
    assert Lower("False") == "false";
    assert Lower("no") == "no";
  }

  // ---------------------------------------------------------------------
  // EmptyModelSerializer.ensure_obj

  /** A missing object is replaced by a fresh, unsaved model instance `blank`. */
  function EnsureObj<T>(obj: Option<T>, blank: T): (r: T)
    ensures obj.Some? ==> r == obj.value
    ensures obj.None? ==> r == blank
  {
    if obj.None? then blank else obj.value
  }

  // ---------------------------------------------------------------------
  // DataBlobProcessor.to_internal_value

  /** A declared serializer field: read-only or not, and its default, if any. */
  datatype FieldSpec = FieldSpec(readOnly: bool, default: Option<Json>)

  /**
   * The names treated as model fields; "data" itself goes into the blob.
   * `known_fields.remove('data')` raises KeyError when no field is named "data".
   */
  function KnownFields(modelFields: set<string>, fields: map<string, FieldSpec>): (r: Result<set<string>>)
    ensures r.Success? <==> "data" in modelFields || "data" in fields
    ensures r.Success? ==> "data" !in r.value
    ensures r.Success? ==> forall n :: n in r.value <==> (n in modelFields || n in fields) && n != "data"
  {
    if "data" !in modelFields + fields.Keys then Failure(KeyError("data"))
    else Success((modelFields + fields.Keys) - {"data"})
  }

  /** The blob a save starts from: the stored one for a partial update, else empty. */
  function BlobBase(partial: bool, instanceData: string, codec: Codec): (r: Result<Dict>)
    ensures !partial ==> r == Success(map[])
    ensures partial ==> r == LoadsDict(codec, instanceData)
  {
    if partial then LoadsDict(codec, instanceData) else Success(map[])
  }

  /** The incoming pairs whose key is not a known field. */
  function Unknown(data: Dict, known: set<string>): (u: Dict)
    ensures forall k :: k in u <==> k in data && k !in known
    ensures forall k :: k in u ==> u[k] == data[k]
  {
    map k | k in data && k !in known :: data[k]
  }

  /** The defaults given to writable fields that a full update leaves unset. */
  function Defaults(present: Dict, fields: map<string, FieldSpec>): (d: Dict)
    ensures forall n :: n in d <==>
      n in fields && !fields[n].readOnly && n !in present && fields[n].default.Some?
    ensures forall n :: n in d ==> d[n] == fields[n].default.value
  {
    map n | n in fields && !fields[n].readOnly && n !in present && fields[n].default.Some? ::
      fields[n].default.value
  }

  /** The validated data DataBlobProcessor.to_internal_value returns. */
  function InternalValue(data: Dict, knownFieldsObject: Dict, modelFields: set<string>,
                         fields: map<string, FieldSpec>, partial: bool,
                         instanceData: string, codec: Codec): (r: Result<Dict>)
    ensures r.Success? <==>
      BlobBase(partial, instanceData, codec).Success? && KnownFields(modelFields, fields).Success?
    ensures BlobBase(partial, instanceData, codec).Failure? ==> r == Failure(BlobBase(partial, instanceData, codec).error)
    ensures r.Success? ==> "data" in r.value && r.value["data"].JStr?
    ensures r.Success? ==>
      forall k :: k in knownFieldsObject && k != "data" ==> k in r.value && r.value[k] == knownFieldsObject[k]
    ensures r.Success? && partial ==> r.value.Keys == knownFieldsObject.Keys + {"data"}
  {
    match BlobBase(partial, instanceData, codec)
    case Failure(e) => Failure(e)
    case Success(base) =>
      match KnownFields(modelFields, fields)
      case Failure(e) => Failure(e)
      case Success(known) =>
        var blob := base + Unknown(data, known);
        var copy := knownFieldsObject["data" := JStr(codec.dumps(JDict(blob)))];
        Success(if partial then copy else copy + Defaults(copy, fields))
  }

  /** The first loop of to_internal_value: unknown keys go into the blob. */
  method CollectUnknown(blob: Dict, data: Dict, known: set<string>) returns (r: Dict)
    ensures r == blob + Unknown(data, known)
  {
    r := blob;
    var keys := data.Keys;
    while keys != {}
      invariant keys <= data.Keys
      invariant r == blob + map k | k in data && k !in keys && k !in known :: data[k]
      decreases keys
    {
      var key :| key in keys;
      if key !in known {
        r := r[key := data[key]];
      }
      keys := keys - {key};
    }
  }

  /** The second loop of to_internal_value: known fields are copied unchanged. */
  method CopyFields(source: Dict) returns (r: Dict)
    ensures r == source
  {
    r := map[];
    var keys := source.Keys;
    while keys != {}
      invariant keys <= source.Keys
      invariant r == map k | k in source && k !in keys :: source[k]
      decreases keys
    {
      var key :| key in keys;
      r := r[key := source[key]];
      keys := keys - {key};
    }
  }

  /** The last loop of to_internal_value: writable, unset fields get their defaults. */
  method FillDefaults(present: Dict, fields: map<string, FieldSpec>) returns (r: Dict)
    ensures r == present + Defaults(present, fields)
  {
    r := present;
    var names := fields.Keys;
    while names != {}
      invariant names <= fields.Keys
      invariant r == present + map n | n in fields && n !in names && !fields[n].readOnly &&
                                       n !in present && fields[n].default.Some? ::
                                   fields[n].default.value
      decreases names
    {
      var name :| name in names;
      var field := fields[name];
      if !field.readOnly && name !in r && field.default.Some? {
        r := r[name := field.default.value];
      }
      names := names - {name};
    }
  }

  /**
   * DataBlobProcessor.to_internal_value. `knownFieldsObject` is what the
   * ModelSerializer validated, `instanceData` the stored blob text.
   */
  method ToInternalValue(data: Dict, knownFieldsObject: Dict, modelFields: set<string>,
                         fields: map<string, FieldSpec>, partial: bool,
                         instanceData: string, codec: Codec) returns (r: Result<Dict>)
    ensures r == InternalValue(data, knownFieldsObject, modelFields, fields, partial, instanceData, codec)
  {
    var base := BlobBase(partial, instanceData, codec);
    if base.Failure? {
      return Failure(base.error);
    }
    var known := KnownFields(modelFields, fields);
    if known.Failure? {
      return Failure(known.error);
    }
    var blob := CollectUnknown(base.value, data, known.value);
    var dataCopy := CopyFields(knownFieldsObject);
    dataCopy := dataCopy["data" := JStr(codec.dumps(JDict(blob)))];
    if !partial {
      dataCopy := FillDefaults(dataCopy, fields);
    }
    return Success(dataCopy);
  }

  /** The blob stored by a save, read back from the returned "data" entry. */
  function StoredBlob(r: Dict, codec: Codec): Result<Dict>
  {
    if "data" in r && r["data"].JStr? then LoadsDict(codec, r["data"].s) else Failure(KeyError("data"))
  }

  /** A full update stores exactly the unknown incoming keys: old blob keys disappear. */
  lemma {:induction false} FullUpdateReplacesBlob(data: Dict, knownFieldsObject: Dict, modelFields: set<string>,
                                                  fields: map<string, FieldSpec>, instanceData: string,
                                                  codec: Codec, known: set<string>)
    requires RoundTrips(codec)
    requires KnownFields(modelFields, fields) == Success(known)
    ensures var r := InternalValue(data, knownFieldsObject, modelFields, fields, false, instanceData, codec);
      r.Success? && StoredBlob(r.value, codec) == Success(Unknown(data, known))
  {
    var blob := map[] + Unknown(data, known);
    assert blob == Unknown(data, known);
    var copy := knownFieldsObject["data" := JStr(codec.dumps(JDict(blob)))];
    assert "data" !in Defaults(copy, fields);
    LoadsDumpsDict(codec, blob);
  }

  /** A partial update keeps every stored key the request does not mention. */
  lemma {:induction false} PartialUpdateKeepsUntouchedKeys(data: Dict, knownFieldsObject: Dict, modelFields: set<string>,
                                                           fields: map<string, FieldSpec>, instanceData: string,
                                                           codec: Codec, key: string)
    requires RoundTrips(codec)
    requires "data" in modelFields
    requires LoadsDict(codec, instanceData).Success?
    requires key in LoadsDict(codec, instanceData).value && key !in data
    ensures var r := InternalValue(data, knownFieldsObject, modelFields, fields, true, instanceData, codec);
      r.Success? && StoredBlob(r.value, codec).Success? &&
      key in StoredBlob(r.value, codec).value &&
      StoredBlob(r.value, codec).value[key] == LoadsDict(codec, instanceData).value[key]
  {
    var base := LoadsDict(codec, instanceData).value;
    var blob := base + Unknown(data, KnownFields(modelFields, fields).value);
    LoadsDumpsDict(codec, blob);
  }

  /** Known fields pass through unchanged; an incoming unknown key lands in the blob. */
  lemma {:induction false} KnownFieldsCopied(data: Dict, knownFieldsObject: Dict, modelFields: set<string>,
                                             fields: map<string, FieldSpec>, partial: bool,
                                             instanceData: string, codec: Codec, key: string)
    requires RoundTrips(codec)
    requires BlobBase(partial, instanceData, codec).Success?
    requires "data" in modelFields
    requires key in data && key !in modelFields && key !in fields
    ensures var r := InternalValue(data, knownFieldsObject, modelFields, fields, partial, instanceData, codec);
      r.Success? && StoredBlob(r.value, codec).Success? &&
      (forall k :: k in knownFieldsObject && k != "data" ==> k in r.value && r.value[k] == knownFieldsObject[k]) &&
      key in StoredBlob(r.value, codec).value && StoredBlob(r.value, codec).value[key] == data[key]
  {
    var base := BlobBase(partial, instanceData, codec).value;
    var known := KnownFields(modelFields, fields).value;
    var blob := base + Unknown(data, known);
    var copy := knownFieldsObject["data" := JStr(codec.dumps(JDict(blob)))];
    assert "data" !in Defaults(copy, fields);
    LoadsDumpsDict(codec, blob);
  }

  /** On a full update each writable field left unset receives its declared default. */
  lemma {:induction false} FullUpdateFillsDefaults(data: Dict, knownFieldsObject: Dict, modelFields: set<string>,
                                                   fields: map<string, FieldSpec>, instanceData: string,
                                                   codec: Codec, name: string)
    requires "data" in modelFields
    requires name in fields && !fields[name].readOnly && fields[name].default.Some?
    requires name !in knownFieldsObject && name != "data"
    ensures var r := InternalValue(data, knownFieldsObject, modelFields, fields, false, instanceData, codec);
      r.Success? && name in r.value && r.value[name] == fields[name].default.value
  {
  }

  /** Without a field named "data" the save fails with KeyError. */
  lemma {:induction false} MissingDataFieldFails(data: Dict, knownFieldsObject: Dict, modelFields: set<string>,
                                                 fields: map<string, FieldSpec>, instanceData: string, codec: Codec)
    requires "data" !in modelFields && "data" !in fields
    ensures InternalValue(data, knownFieldsObject, modelFields, fields, false, instanceData, codec) ==
            Failure(KeyError("data"))
  {
  }

  // ---------------------------------------------------------------------
  // DataBlobProcessor.explode_data_blob

  /** The blob keys shown: all with include_private_fields, else those not starting "private". */
  function VisibleBlob(blob: Dict, includePrivateFields: bool): (v: Dict)
    ensures includePrivateFields ==> v == blob
    ensures !includePrivateFields ==>
      forall k :: k in v <==> k in blob && !StartsWith(k, "private")
    ensures forall k :: k in v ==> k in blob && v[k] == blob[k]
  {
    if includePrivateFields then blob
    else map k | k in blob && !StartsWith(k, "private") :: blob[k]
  }

  /** The blob text held under "data", decoded. */
  function BlobOf(data: Dict, codec: Codec): (r: Result<Dict>)
    ensures "data" !in data ==> r == Failure(KeyError("data"))
  {
    if "data" !in data then Failure(KeyError("data"))
    else if !data["data"].JStr? then Failure(TypeError("blob is not text"))
    else LoadsDict(codec, data["data"].s)
  }

  /** explode_data_blob: drop "data" and merge the (filtered) blob into the map. */
  method ExplodeDataBlob(data: Dict, includePrivateFields: bool, codec: Codec) returns (r: Result<Dict>)
    ensures BlobOf(data, codec).Failure? ==> r == Failure(BlobOf(data, codec).error)
    ensures BlobOf(data, codec).Success? ==>
      r == Success((data - {"data"}) + VisibleBlob(BlobOf(data, codec).value, includePrivateFields))
  {
    var decoded := BlobOf(data, codec);
    if decoded.Failure? {
      return Failure(decoded.error);
    }
    var rest := data - {"data"};
    var blobData := decoded.value;
    if !includePrivateFields {
      var keys := decoded.value.Keys;
      while keys != {}
        invariant keys <= decoded.value.Keys
        invariant blobData == map k | k in decoded.value && (k in keys || !StartsWith(k, "private")) ::
                                  decoded.value[k]
        decreases keys
      {
        var key :| key in keys;
        if StartsWith(key, "private") {
          blobData := blobData - {key};
        }
        keys := keys - {key};
      }
    }
    assert blobData == VisibleBlob(decoded.value, includePrivateFields);
    return Success(rest + blobData);
  }

  /** Without include_private_fields no "private..." blob key reaches the representation. */
  lemma {:induction false} PrivateBlobKeysHidden(data: Dict, codec: Codec, key: string)
    requires BlobOf(data, codec).Success? && StartsWith(key, "private")
    requires key in BlobOf(data, codec).value && key !in data
    ensures var shown := (data - {"data"}) + VisibleBlob(BlobOf(data, codec).value, false);
      key !in shown
    ensures var shown := (data - {"data"}) + VisibleBlob(BlobOf(data, codec).value, true);
      key in shown && shown[key] == BlobOf(data, codec).value[key]
  {
  }

  /** Every blob key is merged into the top level, overriding a field of the same name. */
  lemma {:induction false} ExplodedKeys(data: Dict, codec: Codec, includePrivateFields: bool, key: string)
    requires BlobOf(data, codec).Success?
    ensures var blob := BlobOf(data, codec).value;
      var shown := (data - {"data"}) + VisibleBlob(blob, includePrivateFields);
      ("data" in shown <==> "data" in VisibleBlob(blob, includePrivateFields)) &&
      (key in shown <==> (key in data && key != "data") || key in VisibleBlob(blob, includePrivateFields)) &&
      (key in VisibleBlob(blob, includePrivateFields) ==> shown[key] == blob[key])
  {
  }

  // ---------------------------------------------------------------------
  // FormModulesSerializer.validate

  /** validate: refuses input that carried keys the validated data lacks. */
  function ValidateFormModules(initialData: Option<Dict>, data: Dict): (r: Result<Dict>)
    ensures r.Success? <==> initialData.None? || initialData.value.Keys <= data.Keys
    ensures r.Success? ==> r.value == data
    ensures r.Failure? ==> r.error.ValidationError?
  {
    if initialData.Some? && !(initialData.value.Keys <= data.Keys) then
      Failure(ValidationError("Got unknown fields"))
    else Success(data)
  }
}
