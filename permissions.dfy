/**
 * Request-level authorization gates of the REST views: who counts as the
 * owner, who is "really" logged in (not through an API key or a CORS
 * origin), and the six permission classes' has_permission decisions,
 * including the query that IsAllowedByDataPermissions hands to the dataset
 * permission cascade. The cascade itself is a parameter `check`.
 */
module Permissions {
  import opened JsonValues
  import opened Strings
  import opened Requests

  /** Django REST framework's SAFE_METHODS. */
  const SafeMethods: set<string> := {"GET", "HEAD", "OPTIONS"}

  /** The three query flags that ask for private or invisible data. */
  const PrivateDataFlags: seq<string> :=
    [IncludePrivatePlacesParam, IncludePrivateFieldsParam, IncludeInvisibleParam]

  /** The default method-to-action table of IsAllowedByDataPermissions. */
  const DefaultActions: map<string, string> :=
    map["GET" := "retrieve", "POST" := "create", "PUT" := "update",
        "PATCH" := "update", "DELETE" := "destroy"]

  /**
   * `is_owner(user, request)`: `username and allowed_username == username`,
   * so an empty username is falsy and owns nothing.
   */
  function IsOwner(user: User, req: Request): (r: bool)
    ensures user.username == "" ==> !r
    ensures user.username != "" ==> (r <==> req.allowedUsername == Some(user.username))
  {
    user.username != "" && req.allowedUsername == Some(user.username)
  }

  /** `isinstance(auth, ApiKey)`. */
  function IsApiKeyAuth(auth: Auth): (r: bool)
    ensures r <==> auth.ApiKeyAuth?
  {
    auth.ApiKeyAuth?
  }

  /** `isinstance(auth, str) and auth.startswith('origin')`. */
  function IsOriginAuth(auth: Auth): (r: bool)
    ensures r ==> auth.TextAuth? && |auth.text| >= 6 && auth.text[..6] == "origin"
    ensures auth.TextAuth? && |auth.text| >= 6 && auth.text[..6] == "origin" ==> r
  {
    auth.TextAuth? && StartsWith(auth.text, "origin")
  }

  /** Authenticated, and not by an API key or a CORS origin. */
  function IsReallyLoggedIn(user: User, req: Request): (r: bool)
    ensures !user.isAuthenticated || req.auth.ApiKeyAuth? ==> !r
    ensures req.auth.TextAuth? && StartsWith(req.auth.text, "origin") ==> !r
    ensures user.isAuthenticated && (req.auth.NoAuth? || req.auth.OtherAuth?) ==> r
    ensures user.isAuthenticated && req.auth.TextAuth? && !StartsWith(req.auth.text, "origin") ==> r
  {
    user.isAuthenticated && !IsApiKeyAuth(req.auth) && !IsOriginAuth(req.auth)
  }

  /** The request's client belongs to the owner named by the request. */
  predicate ClientOwnedByOwner(req: Request)
  {
    req.client.Owner().Some? && IsOwner(req.client.Owner().value, req)
  }

  /** IsOwnerOrReadOnly.has_permission. */
  function IsOwnerOrReadOnly(req: Request): (r: bool)
    ensures req.verb in SafeMethods ==> r
    ensures req.verb !in SafeMethods ==>
      (r <==> IsOwner(req.user, req) || req.user.isSuperuser || ClientOwnedByOwner(req))
  {
    if req.verb == "OPTIONS" then true
    else if req.verb in SafeMethods || IsOwner(req.user, req) || req.user.isSuperuser ||
            ClientOwnedByOwner(req) then true
    else false
  }

  /** IsAdminOwnerOrReadOnly.has_permission: also any really-logged-in user. */
  function IsAdminOwnerOrReadOnly(req: Request): (r: bool)
    ensures r <==> IsOwnerOrReadOnly(req) || IsReallyLoggedIn(req.user, req)
    ensures req.verb !in SafeMethods && !req.user.isAuthenticated ==>
      (r <==> IsOwner(req.user, req) || req.user.isSuperuser || ClientOwnedByOwner(req))
  {
    if IsOwnerOrReadOnly(req) then true
    else if IsReallyLoggedIn(req.user, req) then true
    else false
  }

  /** `any([flag in request.GET for flag in private_data_flags])`. */
  predicate RequestsPrivateData(req: Request)
  {
    exists i :: 0 <= i < |PrivateDataFlags| && PrivateDataFlags[i] in req.query
  }

  /** IsLoggedInOwnerOrPublicDataOnly.has_permission. */
  function IsLoggedInOwnerOrPublicDataOnly(req: Request): (r: bool)
    ensures req.verb == "OPTIONS" || !RequestsPrivateData(req) ==> r
    ensures req.verb != "OPTIONS" && RequestsPrivateData(req) ==>
      (r <==> IsReallyLoggedIn(req.user, req) && (IsOwner(req.user, req) || req.user.isSuperuser))
  {
    if req.verb == "OPTIONS" then true
    else if !RequestsPrivateData(req) then true
    else if !IsReallyLoggedIn(req.user, req) then false
    else if IsOwner(req.user, req) || req.user.isSuperuser then true
    else false
  }

  /** IsLoggedInOwner.has_permission. */
  function IsLoggedInOwner(req: Request): (r: bool)
    ensures req.verb == "OPTIONS" ==> r
    ensures req.verb != "OPTIONS" ==>
      (r <==> IsReallyLoggedIn(req.user, req) && (IsOwner(req.user, req) || req.user.isSuperuser))
  {
    if req.verb == "OPTIONS" then true
    else if !IsReallyLoggedIn(req.user, req) then false
    else if IsOwner(req.user, req) || req.user.isSuperuser then true
    else false
  }

  /** IsLoggedInAdmin.has_permission. */
  function IsLoggedInAdmin(req: Request): (r: bool)
    ensures req.verb == "OPTIONS" ==> r
    ensures req.verb != "OPTIONS" ==> (r <==> IsReallyLoggedIn(req.user, req) && req.user.isSuperuser)
  {
    if req.verb == "OPTIONS" then true
    else if !IsReallyLoggedIn(req.user, req) then false
    else if req.user.isSuperuser then true
    else false
  }

  /** The view attributes IsAllowedByDataPermissions consults. */
  datatype View = View(
    isDataSetModel: bool,                    // view.model is a DataSet subclass
    methodActions: Option<map<string, string>>, // view.get_method_actions(), if defined
    submissionSetNameKwarg: Option<string>,  // view.submission_set_name_kwarg, if defined
    kwargs: map<string, string>,             // view.kwargs (URL arguments)
    resourceId: Option<string>)              // view.resource_id, if defined

  /** The arguments of one `check_data_permission` call. */
  datatype DataQuery = DataQuery(
    user: User, client: Client, placeId: Json, action: string,
    datasetId: Option<int>, dataType: string, protected: bool)

  function Actions(view: View): map<string, string>
  {
    if view.methodActions.Some? then view.methodActions.value else DefaultActions
  }

  /** The data type whose permission is checked. */
  function DataType(view: View): (r: string)
    ensures view.submissionSetNameKwarg.Some? && view.submissionSetNameKwarg.value in view.kwargs ==>
      r == view.kwargs[view.submissionSetNameKwarg.value]
    ensures !(view.submissionSetNameKwarg.Some? && view.submissionSetNameKwarg.value in view.kwargs) ==>
      r == (if view.resourceId.Some? then view.resourceId.value else "places")
  {
    if view.submissionSetNameKwarg.Some? && view.submissionSetNameKwarg.value in view.kwargs then
      view.kwargs[view.submissionSetNameKwarg.value]
    else if view.resourceId.Some? then view.resourceId.value
    else "places"
  }

  /** Whether the check is for protected data. */
  function IsProtected(req: Request): (r: bool)
    ensures r <==> RequestsPrivateData(req)
  {
    var r := IncludeInvisibleParam in req.query || IncludePrivateFieldsParam in req.query ||
             IncludePrivatePlacesParam in req.query;
    assert r ==> (PrivateDataFlags[0] in req.query || PrivateDataFlags[1] in req.query ||
                  PrivateDataFlags[2] in req.query);
    r
  }

  /** Requests that IsAllowedByDataPermissions lets through without a check. */
  predicate BypassesDataCheck(req: Request, view: View)
  {
    req.verb == "OPTIONS" || IsOwner(req.user, req) || view.isDataSetModel ||
    JwtParam in req.query || Upper(req.verb) !in Actions(view)
  }

  /**
   * `request.data['id'] if 'id' in request.data else None` for a parsed body
   * of any shape: `in` is a key test on a dict, a membership test on a list
   * (a bulk update) and a substring test on text, and only a dict can then
   * be indexed by a string; `in` on a number, a boolean or None raises.
   */
  function PlaceId(data: Json): (r: Result<Json>)
    ensures data.JDict? ==> r == Success(Get(data.fields, "id"))
    ensures data.JList? ==> (r.Success? <==> JStr("id") !in data.items) && (r.Success? ==> r.value == JNull)
    ensures data.JStr? ==> (r.Success? <==> !Contains(data.s, "id")) && (r.Success? ==> r.value == JNull)
    ensures data.JNull? || data.JBool? || data.JInt? ==> r.Failure?
  {
    match data
    case JDict(d) => if "id" in d then Success(d["id"]) else Success(JNull)
    case JList(items) => if JStr("id") in items then Failure(TypeError("list indices must be integers")) else Success(JNull)
    case JStr(s) => if Contains(s, "id") then Failure(TypeError("string indices must be integers")) else Success(JNull)
    case _ => Failure(TypeError("argument is not iterable"))
  }

  /** The query passed to check_data_permission for a request that is checked. */
  function CheckedQuery(req: Request, view: View): (q: Result<DataQuery>)
    requires Upper(req.verb) in Actions(view)
    ensures q.Success? <==> PlaceId(req.data).Success?
    ensures q.Success? ==>
      q.value.action == Actions(view)[Upper(req.verb)] &&
      q.value.user == req.user && q.value.client == req.client && q.value.datasetId == req.datasetId &&
      q.value.dataType == DataType(view) && q.value.protected == IsProtected(req) &&
      q.value.placeId == PlaceId(req.data).value
    ensures q.Failure? ==> q == Failure(PlaceId(req.data).error)
  {
    match PlaceId(req.data)
    case Failure(e) => Failure(e)
    case Success(placeId) =>
      Success(DataQuery(req.user, req.client, placeId, Actions(view)[Upper(req.verb)], req.datasetId,
                        DataType(view), IsProtected(req)))
  }

  /**
   * IsAllowedByDataPermissions.has_permission; `check` is
   * check_data_permission. A failure is an exception the body raised.
   */
  function HasDataPermission(req: Request, view: View, check: DataQuery -> bool): (r: Result<bool>)
    ensures BypassesDataCheck(req, view) ==> r == Success(true)
    ensures !BypassesDataCheck(req, view) ==>
      (r.Success? <==> CheckedQuery(req, view).Success?) &&
      (r.Success? ==> r.value == check(CheckedQuery(req, view).value))
  {
    if req.verb == "OPTIONS" then Success(true)
    else if IsOwner(req.user, req) then Success(true)
    else if view.isDataSetModel || JwtParam in req.query then Success(true)
    else
      var actions := Actions(view);
      if Upper(req.verb) !in actions then Success(true)
      else
        match CheckedQuery(req, view)
        case Failure(e) => Failure(e)
        case Success(q) => Success(check(q))
  }

  /** IsAllowedByDataPermissions.has_object_permission; `checkJwt` is obj.check_jwt. */
  function HasObjectPermission(req: Request, checkJwt: string -> bool): (r: bool)
    ensures JwtParam in req.query ==> r == checkJwt(req.query[JwtParam])
    ensures JwtParam !in req.query ==> r
  {
    if JwtParam in req.query then checkJwt(req.query[JwtParam]) else true
  }

  // ---------------------------------------------------------------------
  // Properties

  /** An account authenticated through an API key or origin is never "really" logged in. */
  lemma CredentialLoginIsNotReal(req: Request)
    requires req.auth.ApiKeyAuth? || (req.auth.TextAuth? && StartsWith(req.auth.text, "origin"))
    ensures !IsReallyLoggedIn(req.user, req)
  {
  }

  /** The anonymous user owns nothing. */
  lemma AnonymousIsNotOwner(req: Request)
    ensures !IsOwner(Anonymous, req)
  {
  }

  /** A GET with a private-data flag through an API key is refused (HTTP 403). */
  lemma {:induction false} ApiKeyCannotReadPrivateData(req: Request, flag: string)
    requires req.verb == "GET" && req.auth.ApiKeyAuth?
    requires flag in req.query && flag in PrivateDataFlags
    ensures !IsLoggedInOwnerOrPublicDataOnly(req)
  {
    var i :| 0 <= i < |PrivateDataFlags| && PrivateDataFlags[i] == flag;
    assert RequestsPrivateData(req);
  }

  /** Default action table: each listed verb maps to its action, others are unchecked. */
  lemma {:induction false} DefaultActionTable(req: Request, view: View, check: DataQuery -> bool)
    requires view.methodActions.None? && !view.isDataSetModel
    requires req.verb != "OPTIONS" && !IsOwner(req.user, req) && JwtParam !in req.query
    requires req.data.JDict?
    ensures Upper(req.verb) == "GET" ==>
      HasDataPermission(req, view, check) == Success(check(CheckedQuery(req, view).value)) &&
      CheckedQuery(req, view).value.action == "retrieve"
    ensures Upper(req.verb) == "POST" ==> CheckedQuery(req, view).value.action == "create"
    ensures Upper(req.verb) in {"PUT", "PATCH"} ==> CheckedQuery(req, view).value.action == "update"
    ensures Upper(req.verb) == "DELETE" ==> CheckedQuery(req, view).value.action == "destroy"
    ensures Upper(req.verb) !in {"GET", "POST", "PUT", "PATCH", "DELETE"} ==>
      HasDataPermission(req, view, check) == Success(true)
  {
    assert Actions(view) == DefaultActions;
    assert DefaultActions.Keys == {"GET", "POST", "PUT", "PATCH", "DELETE"};
  }

  /** Adding a private-data flag to a checked request makes the check ask for protected data. */
  lemma {:induction false} FlagMakesQueryProtected(req: Request, view: View, flag: string, value: string)
    requires flag in PrivateDataFlags && Upper(req.verb) in Actions(view) && PlaceId(req.data).Success?
    ensures CheckedQuery(req.(query := req.query[flag := value]), view).value.protected
    ensures CheckedQuery(req, view).value.protected <==>
      (IncludeInvisibleParam in req.query || IncludePrivateFieldsParam in req.query ||
       IncludePrivatePlacesParam in req.query)
  {
    var req' := req.(query := req.query[flag := value]);
    var i :| 0 <= i < |PrivateDataFlags| && PrivateDataFlags[i] == flag;
    assert PrivateDataFlags[i] in req'.query;
    assert RequestsPrivateData(req');
    assert Upper(req'.verb) == Upper(req.verb);
  }

  /**
   * A bulk update whose body is a list of places is checked with no place
   * id, unless the list holds the string "id", which makes the lookup raise.
   */
  lemma {:induction false} BulkBodyHasNoPlaceId(req: Request, view: View, check: DataQuery -> bool)
    requires req.data.JList? && !BypassesDataCheck(req, view)
    ensures JStr("id") !in req.data.items ==>
      HasDataPermission(req, view, check) == Success(check(CheckedQuery(req, view).value)) &&
      CheckedQuery(req, view).value.placeId == JNull
    ensures JStr("id") in req.data.items ==> HasDataPermission(req, view, check).Failure?
  {
    assert Upper(req.verb) in Actions(view);
  }
}
