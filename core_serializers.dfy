/**
 * The place, submission, dataset, action and group serializers: query-flag
 * parsing, the grouping of submissions into submission sets, the per-set
 * read-permission filter of the summaries, the dataset place count, the bulk
 * "update if the id matches, else create" pass of the list serializers and
 * the shape of a place's representation.
 */
module CoreSerializers {
  import opened JsonValues
  import opened Strings
  import opened Requests
  import SerializerMixins

  // ---------------------------------------------------------------------
  // SubmittedThingSerializer.is_flag_on

  const FalseSpellings: set<string> := {"false", "no", "off"}

  /** is_flag_on: a present parameter is on unless it spells false, no or off. */
  function IsFlagOn(query: map<string, string>, flag: string): (r: bool)
    ensures flag !in query ==> !r
    ensures flag in query ==> (r <==> Lower(query[flag]) !in FalseSpellings)
  {
    var param := if flag in query then query[flag] else "false";
    assert Lower("false") == "false";
    Lower(param) !in FalseSpellings
  }

  /** For example: a bare `?flag`, "true" and "0" turn a flag on; "False", "NO" and "Off" do not. */
  lemma {:induction false} FlagSpellings(query: map<string, string>, flag: string)
    ensures IsFlagOn(query[flag := ""], flag)
    ensures IsFlagOn(query[flag := "true"], flag)
    ensures IsFlagOn(query[flag := "0"], flag)
    ensures !IsFlagOn(query[flag := "False"], flag)
    ensures !IsFlagOn(query[flag := "NO"], flag)
    ensures !IsFlagOn(query[flag := "Off"], flag)
  {
    assert Lower("") == "";
    assert Lower("true") == "true";
    assert Lower("0") == "0";
    assert Lower("False") == "false";
    assert Lower("NO") == "no";
    assert Lower("Off") == "off";
  }

  // ---------------------------------------------------------------------
  // get_submission_sets

  datatype Submission = Submission(id: int, setName: string, visible: bool)

  /** Whether a submission is listed: always with include_invisible, else if visible. */
  predicate Shown(s: Submission, includeInvisible: bool)
  {
    includeInvisible || s.visible
  }

  /** The listed submissions named `name`, in their original order. */
  function Members(subs: seq<Submission>, name: string, includeInvisible: bool): seq<Submission>
  {
    if subs == [] then []
    else
      var last := subs[|subs| - 1];
      Members(subs[..|subs| - 1], name, includeInvisible) +
      (if last.setName == name && Shown(last, includeInvisible) then [last] else [])
  }

  /** The set names that have at least one listed submission. */
  function Names(subs: seq<Submission>, includeInvisible: bool): set<string>
  {
    set s | s in subs && Shown(s, includeInvisible) :: s.setName
  }

  /** The grouping get_submission_sets builds: each name with its own submissions. */
  function Groups(subs: seq<Submission>, includeInvisible: bool): map<string, seq<Submission>>
  {
    map n | n in Names(subs, includeInvisible) :: Members(subs, n, includeInvisible)
  }

  lemma MembersSnoc(subs: seq<Submission>, s: Submission, name: string, includeInvisible: bool)
    ensures Members(subs + [s], name, includeInvisible) ==
            Members(subs, name, includeInvisible) + (if s.setName == name && Shown(s, includeInvisible) then [s] else [])
  {
    assert (subs + [s])[..|subs|] == subs;
  }

  lemma NamesSnoc(subs: seq<Submission>, s: Submission, includeInvisible: bool)
    ensures Names(subs + [s], includeInvisible) ==
            Names(subs, includeInvisible) + (if Shown(s, includeInvisible) then {s.setName} else {})
  {
  }

  lemma {:induction false} GroupsSnoc(subs: seq<Submission>, s: Submission, includeInvisible: bool)
    ensures Groups(subs + [s], includeInvisible) ==
      if !Shown(s, includeInvisible) then Groups(subs, includeInvisible)
      else Groups(subs, includeInvisible)[s.setName :=
        (if s.setName in Groups(subs, includeInvisible) then Groups(subs, includeInvisible)[s.setName] else []) + [s]]
  {
    var xs := subs + [s];
    var g := Groups(subs, includeInvisible);
    var g' := Groups(xs, includeInvisible);
    NamesSnoc(subs, s, includeInvisible);
    var expected := if !Shown(s, includeInvisible) then g
                    else g[s.setName := (if s.setName in g then g[s.setName] else []) + [s]];
    if Shown(s, includeInvisible) && s.setName !in Names(subs, includeInvisible) {
      MembersOfAbsentName(subs, s.setName, includeInvisible);
    }
    assert g'.Keys == expected.Keys;
    forall n | n in expected ensures g'[n] == expected[n] {
      MembersSnoc(subs, s, n, includeInvisible);
    }
  }

  lemma {:induction false} MembersOfAbsentName(subs: seq<Submission>, name: string, includeInvisible: bool)
    requires name !in Names(subs, includeInvisible)
    ensures Members(subs, name, includeInvisible) == []
  {
    if subs != [] {
      var init := subs[..|subs| - 1];
      assert Names(init, includeInvisible) <= Names(subs, includeInvisible) by {
        forall n | n in Names(init, includeInvisible) ensures n in Names(subs, includeInvisible) {
          var t :| t in init && Shown(t, includeInvisible) && t.setName == n;
          assert t in subs;
        }
      }
      MembersOfAbsentName(init, name, includeInvisible);
      assert subs[|subs| - 1] in subs;
    }
  }

  /** The groups of one more submission of `subs`, given the groups `g` of the ones before it. */
  lemma GroupsStep(subs: seq<Submission>, i: int, includeInvisible: bool, g: map<string, seq<Submission>>)
    requires 0 <= i < |subs| && g == Groups(subs[..i], includeInvisible)
    ensures !(includeInvisible || subs[i].visible) ==> Groups(subs[..i + 1], includeInvisible) == g
    ensures includeInvisible || subs[i].visible ==>
      Groups(subs[..i + 1], includeInvisible) ==
        g[subs[i].setName := (if subs[i].setName in g then g[subs[i].setName] else []) + [subs[i]]]
  {
    assert subs[..i + 1] == subs[..i] + [subs[i]];
    GroupsSnoc(subs[..i], subs[i], includeInvisible);
  }

  /** get_submission_sets: group the listed submissions by set name. */
  method GetSubmissionSets(subs: seq<Submission>, query: map<string, string>)
    returns (sets: map<string, seq<Submission>>)
    ensures sets == Groups(subs, IsFlagOn(query, IncludeInvisibleParam))
  {
    var includeInvisible := IsFlagOn(query, IncludeInvisibleParam);
    sets := map[];
    var i := 0;
    assert subs[..0] == [];
    assert Names([], includeInvisible) == {};
    assert Groups(subs[..0], includeInvisible) == map[];
    while i < |subs|
      invariant 0 <= i <= |subs|
      invariant sets == Groups(subs[..i], includeInvisible)
    {
      var submission := subs[i];
      GroupsStep(subs, i, includeInvisible, sets);
      if includeInvisible || submission.visible {
        var setName := submission.setName;
        var group := if setName in sets then sets[setName] else [];
        sets := sets[setName := group + [submission]];
      }
      i := i + 1;
    }
    assert subs[..|subs|] == subs;
  }

  /** Every member of a group carries the group's name and is listed. */
  lemma {:induction false} MembersBelong(subs: seq<Submission>, name: string, includeInvisible: bool, s: Submission)
    requires s in Members(subs, name, includeInvisible)
    ensures s in subs && s.setName == name && Shown(s, includeInvisible)
  {
    if subs != [] {
      var init := subs[..|subs| - 1];
      if s in Members(init, name, includeInvisible) {
        MembersBelong(init, name, includeInvisible, s);
        assert s in init;
      }
    }
  }

  /** Every listed submission appears in the group of its set name. */
  lemma {:induction false} ShownSubmissionIsGrouped(subs: seq<Submission>, includeInvisible: bool, s: Submission)
    requires s in subs && Shown(s, includeInvisible)
    ensures s.setName in Groups(subs, includeInvisible)
    ensures s in Groups(subs, includeInvisible)[s.setName]
  {
    var init := subs[..|subs| - 1];
    if s != subs[|subs| - 1] {
      assert subs == init + [subs[|subs| - 1]];
      assert s in init;
      ShownSubmissionIsGrouped(init, includeInvisible, s);
    }
  }

  /** Groups hold exactly the listed submissions of their name: without the flag, no invisible one. */
  lemma {:induction false} GroupsAreExact(subs: seq<Submission>, includeInvisible: bool, name: string, s: Submission)
    ensures name in Groups(subs, includeInvisible) && s in Groups(subs, includeInvisible)[name] <==>
            s in subs && Shown(s, includeInvisible) && s.setName == name
  {
    if name in Groups(subs, includeInvisible) && s in Groups(subs, includeInvisible)[name] {
      MembersBelong(subs, name, includeInvisible, s);
    }
    if s in subs && Shown(s, includeInvisible) && s.setName == name {
      ShownSubmissionIsGrouped(subs, includeInvisible, s);
    }
  }

  // ---------------------------------------------------------------------
  // get_submission_set_summaries / get_detailed_submission_sets and
  // DataSetSubmissionSetSummarySerializer.to_representation

  /**
   * The loop shared by the three: a set the reader may not retrieve is
   * skipped, every other set is rendered. `canRetrieve(n)` is
   * check_data_permission(user, client, None, 'retrieve', dataset, n).
   */
  method SetsToNative(sets: map<string, seq<Submission>>, canRetrieve: string -> bool,
                      render: (string, seq<Submission>) -> Json) returns (r: map<string, Json>)
    ensures forall n :: n in r <==> n in sets && canRetrieve(n)
    ensures forall n :: n in r ==> r[n] == render(n, sets[n])
  {
    r := map[];
    var names := sets.Keys;
    while names != {}
      invariant names <= sets.Keys
      invariant forall n :: n in r <==> n in sets && n !in names && canRetrieve(n)
      invariant forall n :: n in r ==> r[n] == render(n, sets[n])
      decreases names
    {
      var setName :| setName in names;
      if canRetrieve(setName) {
        r := r[setName := render(setName, sets[setName])];
      }
      names := names - {setName};
    }
  }

  /** BasePlaceSerializer.summary_to_native: the set's name and its number of submissions. */
  function SummaryToNative(setName: string, subs: seq<Submission>): (r: Json)
    ensures r.JDict? && r.fields.Keys == {"name", "length"}
    ensures r.fields["name"] == JStr(setName) && r.fields["length"] == JInt(|subs|)
  {
    JDict(map["name" := JStr(setName), "length" := JInt(|subs|)])
  }

  /**
   * PlaceSerializer.summary_to_native: the base summary plus the set's URL,
   * which SubmissionSetIdentityField (`setUrl`) builds from the first
   * submission; an empty set raises IndexError.
   */
  function PlaceSummaryToNative(setName: string, subs: seq<Submission>, setUrl: Submission -> Json)
    : (r: Result<Json>)
    ensures subs == [] ==> r == Failure(IndexError)
    ensures subs != [] ==>
      r.Success? && r.value.JDict? && r.value.fields.Keys == {"name", "length", "url"} &&
      r.value.fields["url"] == setUrl(subs[0]) &&
      r.value.fields - {"url"} == SummaryToNative(setName, subs).fields
  {
    if subs == [] then Failure(IndexError)
    else
      var base := SummaryToNative(setName, subs).fields;
      assert base.Keys == {"name", "length"};
      Success(JDict(base["url" := setUrl(subs[0])]))
  }

  /** Every group get_submission_sets builds is non-empty, so its place summary is defined. */
  lemma PlaceSummaryDefined(subs: seq<Submission>, includeInvisible: bool, name: string,
                            setUrl: Submission -> Json)
    requires name in Groups(subs, includeInvisible)
    ensures Groups(subs, includeInvisible)[name] != []
    ensures PlaceSummaryToNative(name, Groups(subs, includeInvisible)[name], setUrl).Success?
  {
    var s :| s in subs && Shown(s, includeInvisible) && s.setName == name;
    ShownSubmissionIsGrouped(subs, includeInvisible, s);
  }

  /** get_submission_set_summaries of a place: name and length of each readable set. */
  method GetSubmissionSetSummaries(subs: seq<Submission>, query: map<string, string>,
                                   canRetrieve: string -> bool) returns (r: map<string, Json>)
    ensures forall n :: n in r <==>
      canRetrieve(n) && exists s :: s in subs && s.setName == n && Shown(s, IsFlagOn(query, IncludeInvisibleParam))
    ensures forall n :: n in r ==>
      r[n] == SummaryToNative(n, Members(subs, n, IsFlagOn(query, IncludeInvisibleParam)))
  {
    var sets := GetSubmissionSets(subs, query);
    r := SetsToNative(sets, canRetrieve, SummaryToNative);
  }

  /** The value of a place summary; the groups get_submission_sets builds never take the IndexError branch. */
  function PlaceSummaryValue(setUrl: Submission -> Json, setName: string, subs: seq<Submission>): Json
  {
    match PlaceSummaryToNative(setName, subs, setUrl)
    case Success(v) => v
    case Failure(_) => JNull
  }

  /**
   * get_submission_set_summaries as PlaceSerializer runs it, dispatching to
   * its summary_to_native: each readable set's summary with its url, and no
   * IndexError, since every group is non-empty.
   */
  method GetPlaceSubmissionSetSummaries(subs: seq<Submission>, query: map<string, string>,
                                        canRetrieve: string -> bool, setUrl: Submission -> Json)
    returns (r: map<string, Json>)
    ensures forall n :: n in r <==>
      canRetrieve(n) && exists s :: s in subs && s.setName == n && Shown(s, IsFlagOn(query, IncludeInvisibleParam))
    ensures forall n :: n in r ==>
      PlaceSummaryToNative(n, Members(subs, n, IsFlagOn(query, IncludeInvisibleParam)), setUrl) == Success(r[n])
  {
    var sets := GetSubmissionSets(subs, query);
    r := SetsToNative(sets, canRetrieve, (n, ss) => PlaceSummaryValue(setUrl, n, ss));
    forall n | n in r
      ensures PlaceSummaryToNative(n, Members(subs, n, IsFlagOn(query, IncludeInvisibleParam)), setUrl) == Success(r[n])
    {
      PlaceSummaryDefined(subs, IsFlagOn(query, IncludeInvisibleParam), n, setUrl);
    }
  }

  /** get_detailed_submission_sets of a place: each readable set rendered in full. */
  method GetDetailedSubmissionSets(subs: seq<Submission>, query: map<string, string>,
                                   canRetrieve: string -> bool,
                                   setToNative: (string, seq<Submission>) -> Json) returns (r: map<string, Json>)
    ensures forall n :: n in r <==>
      canRetrieve(n) && exists s :: s in subs && s.setName == n && Shown(s, IsFlagOn(query, IncludeInvisibleParam))
    ensures forall n :: n in r ==>
      r[n] == setToNative(n, Members(subs, n, IsFlagOn(query, IncludeInvisibleParam)))
  {
    var sets := GetSubmissionSets(subs, query);
    r := SetsToNative(sets, canRetrieve, setToNative);
  }

  /** DataSetSubmissionSetSummarySerializer's summary: length and url. */
  function DataSetSetSummary(setUrl: string -> Json, setName: string, subs: seq<Submission>): Json
  {
    JDict(map["length" := JInt(|subs|), "url" := setUrl(setName)])
  }

  /** DataSetSubmissionSetSummarySerializer.to_representation over the dataset's submissions. */
  method DataSetSubmissionSetSummaries(subs: seq<Submission>, query: map<string, string>,
                                       canRetrieve: string -> bool, setUrl: string -> Json)
    returns (r: map<string, Json>)
    ensures forall n :: n in r <==>
      canRetrieve(n) && exists s :: s in subs && s.setName == n && Shown(s, IsFlagOn(query, IncludeInvisibleParam))
    ensures forall n :: n in r ==>
      r[n] == DataSetSetSummary(setUrl, n, Members(subs, n, IsFlagOn(query, IncludeInvisibleParam)))
  {
    var sets := GetSubmissionSets(subs, query);
    r := SetsToNative(sets, canRetrieve, (n, ss) => DataSetSetSummary(setUrl, n, ss));
  }

  /** Position `i` of `subs` holds a listed submission of set `name`. */
  predicate ListedAt(subs: seq<Submission>, i: int, name: string, includeInvisible: bool)
  {
    0 <= i < |subs| && subs[i].setName == name && Shown(subs[i], includeInvisible)
  }

  /** The length a summary reports counts exactly the listed submissions of the set. */
  lemma {:induction false} SummaryLengthCounts(subs: seq<Submission>, name: string, includeInvisible: bool)
    ensures |Members(subs, name, includeInvisible)| ==
            |set i | 0 <= i < |subs| && ListedAt(subs, i, name, includeInvisible)|
  {
    if subs == [] {
      assert (set i | 0 <= i < |subs| && ListedAt(subs, i, name, includeInvisible)) == {};
    } else {
      var k := |subs| - 1;
      SummaryLengthCounts(subs[..k], name, includeInvisible);
      ListedSetSnoc(subs, name, includeInvisible);
    }
  }

  /** The listed positions of `subs` are those of its front, plus the last one when it is listed. */
  lemma ListedSetSnoc(subs: seq<Submission>, name: string, includeInvisible: bool)
    requires subs != []
    ensures var k := |subs| - 1;
      (set i | 0 <= i < |subs| && ListedAt(subs, i, name, includeInvisible)) ==
      (set i | 0 <= i < k && ListedAt(subs[..k], i, name, includeInvisible)) +
      (if ListedAt(subs, k, name, includeInvisible) then {k} else {})
  {
    var k := |subs| - 1;
    assert forall i :: 0 <= i < k ==>
      (ListedAt(subs[..k], i, name, includeInvisible) <==> ListedAt(subs, i, name, includeInvisible));
  }

  // ---------------------------------------------------------------------
  // DataSetPlaceSetSummarySerializer.get_place_counts

  /** The number of places counted: all with include_invisible present, else the visible ones. */
  function PlaceCount(placeVisible: seq<bool>, query: map<string, string>): (n: nat)
    ensures n <= |placeVisible|
    ensures IncludeInvisibleParam in query ==> n == |placeVisible|
    ensures IncludeInvisibleParam !in query ==>
      n == |set i | 0 <= i < |placeVisible| && VisibleAt(placeVisible, i)|
  {
    if IncludeInvisibleParam in query then |placeVisible| else VisibleCount(placeVisible)
  }

  predicate VisibleAt(placeVisible: seq<bool>, i: int)
  {
    0 <= i < |placeVisible| && placeVisible[i]
  }

  function VisibleCount(placeVisible: seq<bool>): (n: nat)
    ensures n <= |placeVisible|
    ensures n == |set i | 0 <= i < |placeVisible| && VisibleAt(placeVisible, i)|
  {
    if placeVisible == [] then
      assert (set i | 0 <= i < |placeVisible| && VisibleAt(placeVisible, i)) == {};
      0
    else
      var k := |placeVisible| - 1;
      VisibleSetSnoc(placeVisible);
      VisibleCount(placeVisible[..k]) + (if placeVisible[k] then 1 else 0)
  }

  /** The visible positions of a list are those of its front, plus the last one when it is visible. */
  lemma VisibleSetSnoc(placeVisible: seq<bool>)
    requires placeVisible != []
    ensures var k := |placeVisible| - 1;
      (set i | 0 <= i < |placeVisible| && VisibleAt(placeVisible, i)) ==
      (set i | 0 <= i < k && VisibleAt(placeVisible[..k], i)) + (if placeVisible[k] then {k} else {})
  {
    var k := |placeVisible| - 1;
    assert forall i :: 0 <= i < k ==> (VisibleAt(placeVisible[..k], i) <==> VisibleAt(placeVisible, i));
  }

  /**
   * The place count tests the presence of include_invisible, where the
   * submission sets use is_flag_on: `?include_invisible=false` counts
   * invisible places but lists no invisible submission.
   */
  lemma {:induction false} PlaceCountIgnoresFlagValue(placeVisible: seq<bool>, subs: seq<Submission>,
                                                      query: map<string, string>, s: Submission)
    requires s in subs && !s.visible
    ensures PlaceCount(placeVisible, query[IncludeInvisibleParam := "false"]) == |placeVisible|
    ensures s.setName !in Groups(subs, IsFlagOn(query[IncludeInvisibleParam := "false"], IncludeInvisibleParam)) ||
            s !in Groups(subs, IsFlagOn(query[IncludeInvisibleParam := "false"], IncludeInvisibleParam))[s.setName]
  {
    var q := query[IncludeInvisibleParam := "false"];
    assert Lower("false") == "false";
    assert !IsFlagOn(q, IncludeInvisibleParam);
    GroupsAreExact(subs, false, s.setName, s);
  }

  // ---------------------------------------------------------------------
  // PlaceListSerializer.update / SubmissionListSerializer.update

  /** What the list serializer asks its child serializer to do with one item. */
  datatype Outcome = Created(data: Dict) | Updated(id: int, data: Dict)

  /** One item: update the instance whose id it names, else create. */
  function ItemOutcome(item: Dict, existingIds: set<int>, overrides: Dict): (o: Outcome)
    ensures o.Updated? <==> "id" in item && item["id"].JInt? && item["id"].i in existingIds
    ensures o.Updated? ==> o.id == item["id"].i
    ensures forall k :: k in overrides ==> k in o.data && o.data[k] == overrides[k]
    ensures forall k :: k in item && k !in overrides ==> k in o.data && o.data[k] == item[k]
    ensures forall k :: k in o.data ==> k in item || k in overrides
  {
    var data := item + overrides;
    if "id" in item && item["id"].JInt? && item["id"].i in existingIds then Updated(item["id"].i, data)
    else Created(data)
  }

  /** PlaceListSerializer's forced fields: the dataset id looked up by slug. */
  function PlaceOverrides(kwargs: map<string, string>, datasetBySlug: string -> Option<int>): (r: Result<Dict>)
    ensures r.Success? <==> "dataset_slug" in kwargs && datasetBySlug(kwargs["dataset_slug"]).Some?
    ensures r.Success? ==> r.value == map["dataset_id" := JInt(datasetBySlug(kwargs["dataset_slug"]).value)]
  {
    if "dataset_slug" !in kwargs then Failure(KeyError("dataset_slug"))
    else match datasetBySlug(kwargs["dataset_slug"])
      case None => Failure(NotFound)
      case Some(id) => Success(map["dataset_id" := JInt(id)])
  }

  /** SubmissionListSerializer's forced fields: also the place id and set name of the URL. */
  function SubmissionOverrides(kwargs: map<string, string>, datasetBySlug: string -> Option<int>): (r: Result<Dict>)
    ensures r.Success? <==> PlaceOverrides(kwargs, datasetBySlug).Success? &&
                            "place_id" in kwargs && "submission_set_name" in kwargs
    ensures r.Success? ==> r.value == PlaceOverrides(kwargs, datasetBySlug).value[
      "place_model_id" := JStr(kwargs["place_id"])][
      "set_name" := JStr(kwargs["submission_set_name"])]
  {
    match PlaceOverrides(kwargs, datasetBySlug)
    case Failure(e) => Failure(e)
    case Success(o) =>
      if "place_id" !in kwargs then Failure(KeyError("place_id"))
      else if "submission_set_name" !in kwargs then Failure(KeyError("submission_set_name"))
      else Success(o["place_model_id" := JStr(kwargs["place_id"])]["set_name" := JStr(kwargs["submission_set_name"])])
  }

  /**
   * The update loop of both list serializers. The forced fields are computed
   * inside the loop, so an error there is raised only when there is an item.
   */
  method BulkUpdate(existingIds: set<int>, items: seq<Dict>, overrides: Result<Dict>)
    returns (r: Result<seq<Outcome>>)
    ensures items == [] ==> r == Success([])
    ensures items != [] && overrides.Failure? ==> r == Failure(overrides.error)
    ensures overrides.Success? ==> r.Success? && |r.value| == |items|
    ensures overrides.Success? ==>
      forall i :: 0 <= i < |items| ==> r.value[i] == ItemOutcome(items[i], existingIds, overrides.value)
  {
    var ret: seq<Outcome> := [];
    var i := 0;
    while i < |items|
      invariant 0 <= i <= |items|
      invariant i > 0 ==> overrides.Success?
      invariant |ret| == i
      invariant forall j :: 0 <= j < i ==> ret[j] == ItemOutcome(items[j], existingIds, overrides.value)
    {
      var item := items[i];
      var placeId := if "id" in item then item["id"] else JNull;
      var matched := placeId.JInt? && placeId.i in existingIds;
      if overrides.Failure? {
        return Failure(overrides.error);
      }
      var data := item + overrides.value;
      if !matched {
        ret := ret + [Created(data)];
      } else {
        ret := ret + [Updated(placeId.i, data)];
      }
      i := i + 1;
    }
    return Success(ret);
  }

  /** Re-sending an existing place with its id updates it; a new or missing id creates. */
  lemma {:induction false} UpdateOrCreate(existingIds: set<int>, item: Dict, overrides: Dict, id: int)
    requires "dataset_id" in overrides
    ensures ItemOutcome(item["id" := JInt(id)], existingIds, overrides).Updated? <==> id in existingIds
    ensures ItemOutcome(item - {"id"}, existingIds, overrides).Created?
    ensures ItemOutcome(item["id" := JNull], existingIds, overrides).Created?
    ensures ItemOutcome(item, existingIds, overrides).data["dataset_id"] == overrides["dataset_id"]
  {
  }

  // ---------------------------------------------------------------------
  // BasePlaceSerializer.to_representation

  /** The stored place attributes the representation reads. */
  datatype Place = Place(
    pk: Json, wkt: Option<string>, datasetUrl: Json, attachments: Json, submitter: Json,
    data: string, visible: bool, created: Json, updated: Json, isPrivate: bool,
    distance: Option<string>)

  /** The serializer context and the values of the collaborators it calls. */
  datatype PlaceContext = PlaceContext(
    query: map<string, string>,     // request.GET
    includeJwt: bool,               // context.get('include_jwt') is truthy
    jwt: string,                    // obj.make_jwt()
    url: Option<Json>,              // the 'url' field's value, when the serializer has one
    summaries: Json,                // get_submission_set_summaries(obj)
    detailedSets: Json,             // get_detailed_submission_sets(obj)
    tagSummary: Json,               // get_tag_summary(obj)
    detailedTags: Json)             // get_detailed_tags(obj)

  /** The fixed keys of the representation, before the blob is exploded into it. */
  function PlaceFields(p: Place, ctx: PlaceContext): (d: Dict)
    ensures "private" in d <==> p.isPrivate
    ensures "jwt_public" in d <==> ctx.includeJwt
    ensures "url" in d <==> ctx.url.Some?
    ensures "geometry" in d && "data" in d && "id" in d
    ensures d["geometry"] == JStr(if p.wkt.Some? && p.wkt.value != "" then p.wkt.value else "POINT(0 0)")
    ensures d["data"] == JStr(p.data) && d["id"] == p.pk
  {
    var base := map[
      "id" := p.pk,
      "geometry" := JStr(if p.wkt.Some? && p.wkt.value != "" then p.wkt.value else "POINT(0 0)"),
      "dataset" := p.datasetUrl,
      "attachments" := p.attachments,
      "submitter" := p.submitter,
      "data" := JStr(p.data),
      "visible" := JBool(p.visible),
      "created_datetime" := p.created,
      "updated_datetime" := p.updated];
    var withPrivate := if p.isPrivate then base["private" := JBool(true)] else base;
    var withJwt := if ctx.includeJwt then withPrivate["jwt_public" := JStr(ctx.jwt)] else withPrivate;
    if ctx.url.Some? then withJwt["url" := ctx.url.value] else withJwt
  }

  /** The keys after explode_data_blob: the fixed keys except "data", overlaid by the shown blob. */
  function Exploded(p: Place, ctx: PlaceContext, blob: Dict): Dict
  {
    (PlaceFields(p, ctx) - {"data"}) + SerializerMixins.VisibleBlob(blob, IsFlagOn(ctx.query, IncludePrivateFieldsParam))
  }

  /** The keys set after the explosion: submission sets, tags and distance. */
  function Finish(p: Place, ctx: PlaceContext, d: Dict): (r: Dict)
    ensures "submission_sets" in r && "tags" in r
    ensures r["submission_sets"] ==
      (if IsFlagOn(ctx.query, IncludeSubmissionsParam) then ctx.detailedSets else ctx.summaries)
    ensures r["tags"] == (if IsFlagOn(ctx.query, IncludeTagsParam) then ctx.detailedTags else ctx.tagSummary)
    ensures "distance" in r <==> p.distance.Some? || "distance" in d
    ensures p.distance.Some? ==> r["distance"] == JStr(p.distance.value)
    ensures forall k :: k != "submission_sets" && k != "tags" && k != "distance" ==>
      (k in r <==> k in d) && (k in d ==> r[k] == d[k])
  {
    var sets := if !IsFlagOn(ctx.query, IncludeSubmissionsParam) then ctx.summaries else ctx.detailedSets;
    var tags := if !IsFlagOn(ctx.query, IncludeTagsParam) then ctx.tagSummary else ctx.detailedTags;
    var withSets := d["submission_sets" := sets]["tags" := tags];
    if p.distance.Some? then withSets["distance" := JStr(p.distance.value)] else withSets
  }

  /** The place's representation: fixed keys, the exploded blob, then sets, tags and distance. */
  function PlaceRepresentation(p: Place, ctx: PlaceContext, codec: Codec): (r: Result<Dict>)
    ensures r.Success? <==> LoadsDict(codec, p.data).Success?
    ensures r.Success? ==> r.value == Finish(p, ctx, Exploded(p, ctx, LoadsDict(codec, p.data).value))
  {
    match LoadsDict(codec, p.data)
    case Failure(e) => Failure(e)
    case Success(blob) => Success(Finish(p, ctx, Exploded(p, ctx, blob)))
  }

  /** The place's representation, computed as BasePlaceSerializer.to_representation does. */
  method PlaceToRepresentation(p: Place, ctx: PlaceContext, codec: Codec) returns (r: Result<Dict>)
    ensures r == PlaceRepresentation(p, ctx, codec)
  {
    var data := PlaceFields(p, ctx);
    var exploded := SerializerMixins.ExplodeDataBlob(data, IsFlagOn(ctx.query, IncludePrivateFieldsParam), codec);
    if exploded.Failure? {
      return Failure(exploded.error);
    }
    data := exploded.value;
    var setsGetter := if !IsFlagOn(ctx.query, IncludeSubmissionsParam) then ctx.summaries else ctx.detailedSets;
    var tagsGetter := if !IsFlagOn(ctx.query, IncludeTagsParam) then ctx.tagSummary else ctx.detailedTags;
    data := data["submission_sets" := setsGetter];
    data := data["tags" := tagsGetter];
    if p.distance.Some? {
      data := data["distance" := JStr(p.distance.value)];
    }
    return Success(data);
  }

  /**
   * "private" appears only for a private place, or when the blob holds a
   * "private" key and include_private_fields is on.
   */
  lemma {:induction false} PrivateKeyOnlyWhenPrivate(p: Place, ctx: PlaceContext, codec: Codec)
    requires LoadsDict(codec, p.data).Success?
    ensures var r := PlaceRepresentation(p, ctx, codec);
      var blob := LoadsDict(codec, p.data).value;
      r.Success? &&
      ("private" in r.value <==> p.isPrivate ||
                                 ("private" in blob && IsFlagOn(ctx.query, IncludePrivateFieldsParam)))
  {
    assert StartsWith("private", "private");
  }

  /** "jwt_public" appears only with include_jwt (or a blob key of that name). */
  lemma {:induction false} JwtOnlyWhenAsked(p: Place, ctx: PlaceContext, codec: Codec)
    requires LoadsDict(codec, p.data).Success?
    ensures var r := PlaceRepresentation(p, ctx, codec);
      var blob := LoadsDict(codec, p.data).value;
      r.Success? && ("jwt_public" in r.value <==> ctx.includeJwt || "jwt_public" in blob)
  {
    assert "jwt_public"[..|"private"|][0] != "private"[0];
  }

  /** "distance" appears, as text, exactly when the place is annotated with one. */
  lemma {:induction false} DistanceOnlyWhenAnnotated(p: Place, ctx: PlaceContext, codec: Codec)
    requires LoadsDict(codec, p.data).Success? && "distance" !in LoadsDict(codec, p.data).value
    ensures var r := PlaceRepresentation(p, ctx, codec);
      r.Success? && ("distance" in r.value <==> p.distance.Some?) &&
      (p.distance.Some? ==> r.value["distance"] == JStr(p.distance.value))
  {
    var blob := LoadsDict(codec, p.data).value;
    assert "distance" !in PlaceFields(p, ctx);
    assert "distance" !in SerializerMixins.VisibleBlob(blob, IsFlagOn(ctx.query, IncludePrivateFieldsParam));
    assert "distance" !in Exploded(p, ctx, blob);
  }

  /** A place without geometry shows "POINT(0 0)" unless its blob names a geometry. */
  lemma {:induction false} MissingGeometryIsOrigin(p: Place, ctx: PlaceContext, codec: Codec)
    requires p.wkt.None? && LoadsDict(codec, p.data).Success? && "geometry" !in LoadsDict(codec, p.data).value
    ensures var r := PlaceRepresentation(p, ctx, codec);
      r.Success? && "geometry" in r.value && r.value["geometry"] == JStr("POINT(0 0)")
  {
  }

  // ---------------------------------------------------------------------
  // ActionSerializer.get_target_type

  /** What an action's thing turns out to be; it may be neither. */
  datatype Thing = PlaceThing | SubmissionThing(setName: string) | Neither

  /** get_target_type: "place" for a place, else the submission's set name. */
  function TargetType(thing: Thing): (r: Result<string>)
    ensures thing.PlaceThing? ==> r == Success("place")
    ensures thing.SubmissionThing? ==> r == Success(thing.setName)
    ensures thing.Neither? ==> r == Failure(NotFound)
  {
    match thing
    case PlaceThing => Success("place")
    case SubmissionThing(n) => Success(n)
    case Neither => Failure(NotFound)
  }

  // ---------------------------------------------------------------------
  // GroupSerializer.to_representation

  datatype GroupPermission = GroupPermission(abilities: seq<string>, submissionSet: string)

  datatype Group = Group(name: string, datasetUrl: string, datasetSlug: string,
                         permissions: seq<GroupPermission>)

  function PermissionJson(p: GroupPermission): Json
  {
    JDict(map["abilities" := JList(seq(|p.abilities|, i requires 0 <= i < |p.abilities| => JStr(p.abilities[i]))),
              "submission_set" := JStr(p.submissionSet)])
  }

  /** GroupSerializer.to_representation: one permission entry per permission, in order. */
  method GroupRepresentation(g: Group) returns (r: Dict)
    ensures r.Keys == {"dataset", "name", "dataset_slug", "permissions"}
    ensures r["dataset"] == JStr(g.datasetUrl) && r["name"] == JStr(g.name)
    ensures r["dataset_slug"] == JStr(g.datasetSlug)
    ensures r["permissions"].JList? && |r["permissions"].items| == |g.permissions|
    ensures forall i :: 0 <= i < |g.permissions| ==> r["permissions"].items[i] == PermissionJson(g.permissions[i])
  {
    var permissions: seq<Json> := [];
    for i := 0 to |g.permissions|
      invariant |permissions| == i
      invariant forall j :: 0 <= j < i ==> permissions[j] == PermissionJson(g.permissions[j])
    {
      permissions := permissions + [PermissionJson(g.permissions[i])];
    }
    r := map["dataset" := JStr(g.datasetUrl), "name" := JStr(g.name),
             "dataset_slug" := JStr(g.datasetSlug), "permissions" := JList(permissions)];
  }
}
