# Shareabouts API core, modelled in Dafny

This project models the request-level logic of the Shareabouts API, a Django REST
service that stores places, their submissions and their tags in datasets. The models
cover these parts of the service:

- the permission classes that gate every request;
- the serialisers that move schemaless data in and out of a place's JSON `data` blob;
- the hyperlinked fields and `api_reverse`;
- the user serialiser, with its social-provider strategies and the Twitter avatar rewrite;
- the CSV and GeoJSON renderers;
- the tag model's colour validator, tag strings and dataset guard;
- the e-mail notification choice;
- the CORS headers and the JSONP and XDomainRequest content negotiation;
- the admin's own rules;
- the two rain-garden management commands.

Each model is stated in Dafny and proved against its contract. The modules follow the
source files:

| module | file | source |
|---|---|---|
| `JsonValues` | json.dfy | decoded JSON values, Python truthiness, `dict.get`, `x[key]`, the JSON codec as a pair of functions |
| `Strings` | strings.dfy | Python 2 string operations: ASCII `lower`/`upper`, `in`, `join`, `isspace`, `str(n)` |
| `Requests` | requests.dfy | the request, user, auth and client that the views read |
| `Permissions` | permissions.dfy | `views/permissions.py` |
| `SerializerMixins` | serializer_mixins.dfy | `serializers/mixins.py` |
| `CoreSerializers` | core_serializers.dfy | `serializers/core.py` |
| `Fields` | fields.dfy | `serializers/fields.py` |
| `UserSerializer` | user_serializer.dfy | `serializers/user.py` |
| `Renderers` | renderers.dfy | `renderers.py` |
| `Tags` | tags.dfy | `models/tags.py` |
| `EmailTemplates` | email_templates.dfy | `views/email_templates.py` |
| `Cors` | cors.dfy | `views/mixins.py` |
| `ContentNegotiation` | content_negotiation.dfy | `views/content_negotiation.py` |
| `Admin` | admin.dfy | `admin.py` |
| `RainGardenNumbers` | rain_garden_numbers.dfy | `management/commands/updateRainGardenNumbers.py` |
| `MigrateRainGardens` | migrate_rain_gardens.dfy | `management/commands/migrateRainGardens.py` |

## How the code is modelled

- Pure decisions become functions, and the properties relating them become lemmas.
- Code that loops becomes methods with loop invariants, each proved equal to a specification function. This covers:
  - `get_strategy`;
  - `get_submission_sets`, and the summary and detail builders over it;
  - the list serialisers' update loop;
  - `get_url_kwargs`;
  - the loops of `to_internal_value` and `explode_data_blob`;
  - the e-mail template loop;
  - the clone-slug search;
  - the sources loop;
  - the numbering pass, which works in place on an array of rows.
- Objects whose fields the source updates become classes with `modifies` clauses:
  - the response headers;
  - the request META corrected by `select_parser`;
  - the dataset form saved by the admin;
  - the place-tag table.
- These collaborators are parameters:
  - `check_data_permission`;
  - the JSON codec (`json.dumps`/`json.loads`);
  - GEOS parsing;
  - `urlquote_plus`;
  - `Origin.match`;
  - `obj.check_jwt`;
  - the ORM lookups.
- Python dicts are Dafny maps, so their insertion order is not modelled.
- Strings follow Python 2 byte strings: `lower`, `upper` and `isspace` are ASCII only.

## Model

| member | source | states |
|---|---|---|
| `Permissions.IsOwner` | src/sa_api_v2/views/permissions.py:17-21 | an empty username owns nothing; a non-empty one owns exactly when it equals the request's allowed username |
| `Permissions.IsApiKeyAuth` | src/sa_api_v2/views/permissions.py:24-25 | true exactly for an API-key authentication |
| `Permissions.IsOriginAuth` | src/sa_api_v2/views/permissions.py:28-29 | true exactly for a text authentication that starts with "origin" |
| `Permissions.IsReallyLoggedIn` | src/sa_api_v2/views/permissions.py:32-36 | false for an anonymous user, an API key or an "origin..." text; true for an authenticated user with any other authentication |
| `Permissions.IsOwnerOrReadOnly` | src/sa_api_v2/views/permissions.py:17-57 | OPTIONS and safe methods pass; an unsafe method passes exactly for the owner (a non-empty username equal to the allowed one), a superuser, or a client whose owner is the owner |
| `Permissions.IsAdminOwnerOrReadOnly` | src/sa_api_v2/views/permissions.py:60-70 | passes exactly when IsOwnerOrReadOnly does or the user is really logged in |
| `Permissions.IsLoggedInOwnerOrPublicDataOnly` | src/sa_api_v2/views/permissions.py:73-100 | OPTIONS and requests without any private-data flag pass; with a flag, only a really logged-in owner or superuser passes |
| `Permissions.IsLoggedInOwner` | src/sa_api_v2/views/permissions.py:103-122 | OPTIONS passes; otherwise exactly a really logged-in owner or superuser |
| `Permissions.IsLoggedInAdmin` | src/sa_api_v2/views/permissions.py:125-136 | OPTIONS passes; otherwise exactly a really logged-in superuser |
| `Permissions.DataType` | src/sa_api_v2/views/permissions.py:178-185 | the submission-set URL kwarg when the view names one that is present, else view.resource_id, else "places" |
| `Permissions.IsProtected` | src/sa_api_v2/views/permissions.py:188-192 | true exactly when one of the three private-data flags is in the query |
| `Permissions.CheckedQuery` | src/sa_api_v2/views/permissions.py:174-200 | the checked query carries the mapped action, the request's user, client and dataset, and the data's "id" or None |
| `Permissions.PlaceId` | src/sa_api_v2/views/permissions.py:198-199 | a dict body gives its "id" or None; a list or text body gives None unless it contains "id", where the lookup raises; `in` on any other body raises |
| `Permissions.HasDataPermission` | src/sa_api_v2/views/permissions.py:147-172 | OPTIONS, the owner, DataSet views, JWT requests and unmapped methods pass; every other request gets the data-permission check's verdict on the checked query |
| `Permissions.HasObjectPermission` | src/sa_api_v2/views/permissions.py:140-145 | with a token, the object's JWT check of that token; without one, true |
| `Permissions.CredentialLoginIsNotReal` | src/sa_api_v2/views/permissions.py:24-36 | an API-key or "origin..." authentication is never really logged in, even for an authenticated user |
| `Permissions.AnonymousIsNotOwner` | src/sa_api_v2/views/permissions.py:17-21 | a user with an empty username owns nothing |
| `Permissions.ApiKeyCannotReadPrivateData` | src/sa_api_v2/views/permissions.py:86-100 | a GET with any private-data flag authenticated by an API key is refused |
| `Permissions.DefaultActionTable` | src/sa_api_v2/views/permissions.py:159-172 | with the default table, GET/POST/PUT/PATCH/DELETE are checked as retrieve/create/update/update/destroy, and other methods pass unchecked |
| `Permissions.FlagMakesQueryProtected` | src/sa_api_v2/views/permissions.py:188-192 | adding any private-data flag to a checked request makes the query protected |
| `Permissions.BulkBodyHasNoPlaceId` | src/sa_api_v2/views/permissions.py:174-200 | a list body without the string "id" is checked with no place id; one holding "id" makes the check raise |
| `SerializerMixins.SaveArgumentsFor` | src/sa_api_v2/serializers/mixins.py:16-26 | the save is silent if asked, or if the lower-cased silent header is true/t/yes/y; the referer (or "") is the source |
| `SerializerMixins.SilentHeaderSpellings` | src/sa_api_v2/serializers/mixins.py:18-20 | for example, the headers YES and True silence the save; "no" and an absent header do not |
| `SerializerMixins.EnsureObj` | src/sa_api_v2/serializers/mixins.py:34-37 | a missing object becomes the blank instance; a present one is kept |
| `SerializerMixins.KnownFields` | src/sa_api_v2/serializers/mixins.py:58-66 | model fields and serializer fields, minus "data"; KeyError when "data" is among neither |
| `SerializerMixins.BlobBase` | src/sa_api_v2/serializers/mixins.py:53 | a partial update starts from the stored blob, a full one from an empty blob |
| `SerializerMixins.Unknown` | src/sa_api_v2/serializers/mixins.py:70-72 | exactly the incoming pairs whose key is not known |
| `SerializerMixins.Defaults` | src/sa_api_v2/serializers/mixins.py:79-82 | exactly the writable, unset fields that declare a default, with that default |
| `SerializerMixins.CollectUnknown` | src/sa_api_v2/serializers/mixins.py:70-72 | the loop leaves the blob updated with every unknown incoming pair |
| `SerializerMixins.CopyFields` | src/sa_api_v2/serializers/mixins.py:74-75 | the loop copies every validated field unchanged |
| `SerializerMixins.FillDefaults` | src/sa_api_v2/serializers/mixins.py:79-82 | the loop adds exactly the defaults of writable fields missing from the result |
| `SerializerMixins.InternalValue` | src/sa_api_v2/serializers/mixins.py:46-84 | succeeds exactly when the stored blob decodes (on a partial update) and "data" is a known field; the known fields are copied, "data" is the encoded blob, and a partial update adds no other key |
| `SerializerMixins.ToInternalValue` | src/sa_api_v2/serializers/mixins.py:46-84 | the method's result is the specified internal value: known fields copied, "data" the encoded blob, defaults on a full update |
| `SerializerMixins.FullUpdateReplacesBlob` | src/sa_api_v2/serializers/mixins.py:53-77 | after a full update, the stored blob holds exactly the unknown incoming keys |
| `SerializerMixins.PartialUpdateKeepsUntouchedKeys` | src/sa_api_v2/serializers/mixins.py:53-77 | after a partial update, every stored key the request does not mention survives unchanged |
| `SerializerMixins.KnownFieldsCopied` | src/sa_api_v2/serializers/mixins.py:70-77 | known fields pass through unchanged, and an incoming unknown key lands in the blob with its value |
| `SerializerMixins.FullUpdateFillsDefaults` | src/sa_api_v2/serializers/mixins.py:79-82 | on a full update, each writable field left unset receives its declared default |
| `SerializerMixins.MissingDataFieldFails` | src/sa_api_v2/serializers/mixins.py:66 | without a field named "data", the save raises KeyError |
| `SerializerMixins.VisibleBlob` | src/sa_api_v2/serializers/mixins.py:101-105 | all blob keys with include_private_fields; otherwise exactly those not starting with "private" |
| `SerializerMixins.ExplodeDataBlob` | src/sa_api_v2/serializers/mixins.py:96-108 | "data" is removed and the visible blob is merged over the remaining keys; a missing "data" is a KeyError |
| `SerializerMixins.PrivateBlobKeysHidden` | src/sa_api_v2/serializers/mixins.py:101-105 | without the flag, no "private..." blob key reaches the representation |
| `SerializerMixins.ExplodedKeys` | src/sa_api_v2/serializers/mixins.py:96-108 | every shown blob key appears at the top level, overriding a field of the same name |
| `SerializerMixins.ValidateFormModules` | src/sa_api_v2/serializers/mixins.py:127-132 | ValidationError exactly when the initial data has keys that the validated data lacks; otherwise the data is returned unchanged |
| `CoreSerializers.IsFlagOn` | src/sa_api_v2/serializers/core.py:233-236 | absent is off; present is on unless its lower-case form is false, no or off |
| `CoreSerializers.FlagSpellings` | src/sa_api_v2/serializers/core.py:267-270 | for example, a bare flag (""), "true" and "0" are on; False, NO and Off are off |
| `CoreSerializers.GetSubmissionSets` | src/sa_api_v2/serializers/core.py:284-291 | the loop builds the grouping of the listed submissions by set name |
| `CoreSerializers.MembersBelong` | src/sa_api_v2/serializers/core.py:286-290 | every member of a group carries that group's name and is listed |
| `CoreSerializers.ShownSubmissionIsGrouped` | src/sa_api_v2/serializers/core.py:286-290 | every listed submission is in the group of its set name |
| `CoreSerializers.GroupsAreExact` | src/sa_api_v2/serializers/core.py:286-290 | a group holds exactly the listed submissions of its name; without include_invisible, it holds no invisible one |
| `CoreSerializers.SetsToNative` | src/sa_api_v2/serializers/core.py:306-319 | the loop keeps exactly the sets the user may retrieve, each rendered from its own group |
| `CoreSerializers.GetSubmissionSetSummaries` | src/sa_api_v2/serializers/core.py:293-319 | each readable set's summary has its name and its group's length; unreadable sets are left out |
| `CoreSerializers.GetPlaceSubmissionSetSummaries` | src/sa_api_v2/serializers/core.py:299-319 | with PlaceSerializer's override: each readable set's summary is its place summary, with the url, and never the IndexError |
| `CoreSerializers.GetDetailedSubmissionSets` | src/sa_api_v2/serializers/core.py:349-378 | each readable set is rendered in full; unreadable sets are left out |
| `CoreSerializers.DataSetSubmissionSetSummaries` | src/sa_api_v2/serializers/core.py:238-263 | the dataset's summaries: readable sets only, each with its group's length |
| `CoreSerializers.SummaryToNative` | src/sa_api_v2/serializers/core.py:293-297 | exactly the keys name and length, with the set name and the number of submissions |
| `CoreSerializers.PlaceSummaryToNative` | src/sa_api_v2/serializers/core.py:490-502 | an empty set raises IndexError; otherwise the base summary plus "url", the identity URL of the first submission |
| `CoreSerializers.PlaceSummaryDefined` | src/sa_api_v2/serializers/core.py:286-290 | every group is non-empty, so its place summary never raises |
| `CoreSerializers.SummaryLengthCounts` | src/sa_api_v2/serializers/core.py:293-297 | the reported length counts exactly the listed submissions of that set |
| `CoreSerializers.PlaceCount` | src/sa_api_v2/serializers/core.py:211-215 | all places when include_invisible is present, else only the visible ones |
| `CoreSerializers.VisibleCount` | src/sa_api_v2/serializers/core.py:213-215 | the number of visible places, at most the number of places |
| `CoreSerializers.PlaceCountIgnoresFlagValue` | src/sa_api_v2/serializers/core.py:211-239 | the place count is decided by the flag's presence, so `include_invisible=false` still counts invisible places, while the submission sets test the flag's value |
| `CoreSerializers.ItemOutcome` | src/sa_api_v2/serializers/core.py:462-474 | an item whose id names an existing instance updates it, any other item is created, and the URL's forced fields override the item's |
| `CoreSerializers.PlaceOverrides` | src/sa_api_v2/serializers/core.py:468-470 | dataset_id is the id of the dataset named by the URL's slug; a failure when there is no such dataset |
| `CoreSerializers.SubmissionOverrides` | src/sa_api_v2/serializers/core.py:541-545 | dataset_id, and also place_model_id and set_name, come from the URL kwargs |
| `CoreSerializers.BulkUpdate` | src/sa_api_v2/serializers/core.py:457-476 | one outcome per input item, in input order, each the item's own update-or-create |
| `CoreSerializers.UpdateOrCreate` | src/sa_api_v2/serializers/core.py:463-474 | re-sending an existing id updates that instance; an unknown or missing id creates |
| `CoreSerializers.PlaceFields` | src/sa_api_v2/serializers/core.py:393-424 | the fixed keys, with geometry "POINT(0 0)" when none, "private" only for a private place, "jwt_public" only with include_jwt, "url" only when the field exists |
| `CoreSerializers.Finish` | src/sa_api_v2/serializers/core.py:432-446 | summaries or details by include_submissions, tag summary or detail by include_tags, and "distance" as text only when annotated |
| `CoreSerializers.PlaceRepresentation` | src/sa_api_v2/serializers/core.py:386-448 | fixed keys, then the exploded blob, then sets, tags and distance |
| `CoreSerializers.PlaceToRepresentation` | src/sa_api_v2/serializers/core.py:386-448 | the method computes PlaceRepresentation |
| `CoreSerializers.PrivateKeyOnlyWhenPrivate` | src/sa_api_v2/serializers/core.py:411-412 | "private" is shown for a private place, and for a public one only when its blob names it |
| `CoreSerializers.JwtOnlyWhenAsked` | src/sa_api_v2/serializers/core.py:414-415 | "jwt_public" appears only with include_jwt or a blob key of that name |
| `CoreSerializers.DistanceOnlyWhenAnnotated` | src/sa_api_v2/serializers/core.py:445-446 | "distance" appears, as text, exactly when the place is annotated with one |
| `CoreSerializers.MissingGeometryIsOrigin` | src/sa_api_v2/serializers/core.py:395 | a place without geometry shows "POINT(0 0)" unless its blob names a geometry |
| `CoreSerializers.TargetType` | src/sa_api_v2/serializers/core.py:703-710 | "place" for a place, the set name for a submission, an error for neither |
| `CoreSerializers.GroupRepresentation` | src/sa_api_v2/serializers/core.py:142-156 | dataset url, name and slug, plus one permission entry per permission, in order |
| `Fields.GeometryFieldFormat` | src/sa_api_v2/serializers/fields.py:17-21 | json, wkt and dict are accepted; every other format is a ValueError |
| `Fields.FormatNamesAccepted` | src/sa_api_v2/serializers/fields.py:20 | each format's own name is accepted and names that format |
| `Fields.GeometryToRepresentation` | src/sa_api_v2/serializers/fields.py:25-33 | the GeoJSON text, the WKT, or the decoded GeoJSON |
| `Fields.GeometryToInternalValue` | src/sa_api_v2/serializers/fields.py:35-42 | a str is parsed as given and other input is encoded first; a parse failure is a ValidationError |
| `Fields.InstanceKwargs` | src/sa_api_v2/serializers/fields.py:61-65 | a user yields only owner_username; other objects yield the cached parameters |
| `Fields.ResolveArg` | src/sa_api_v2/serializers/fields.py:69-75 | a non-None instance parameter, else the attribute, else none |
| `Fields.UrlKwargs` | src/sa_api_v2/serializers/fields.py:67-77 | the only error is a KeyError; UrlKwargsSucceeds, UrlKwargsKeys and UrlKwargsFirstFailure give when it succeeds, its exact keys and values, and which name fails |
| `Fields.UrlKwargsSucceeds` | src/sa_api_v2/serializers/fields.py:67-77 | the kwargs are built exactly when every url_arg name resolves |
| `Fields.UrlKwargsKeys` | src/sa_api_v2/serializers/fields.py:67-77 | built kwargs hold exactly the url_arg names, each with its resolved value |
| `Fields.UrlKwargsFirstFailure` | src/sa_api_v2/serializers/fields.py:67-77 | a failure is the KeyError of the first name that does not resolve, after names that all resolve |
| `Fields.UrlKwargsFailureStays` | src/sa_api_v2/serializers/fields.py:68-75 | once a name fails, the loop's KeyError is the result whatever names follow |
| `Fields.GetUrlKwargs` | src/sa_api_v2/serializers/fields.py:57-77 | exactly the url_arg_names keys, each resolved; a KeyError names the first unresolved one |
| `Fields.UserLinksByUsername` | src/sa_api_v2/serializers/fields.py:61-62 | a user linked by its owner_username argument yields exactly its username |
| `Fields.Fill` | src/sa_api_v2/serializers/fields.py:113 | a KeyError for the first placeholder without a value; otherwise the filled text |
| `Fields.PlaceDetailPath` | src/sa_api_v2/serializers/fields.py:95-96 | the place-detail route filled is "/" owner "/datasets/" slug "/places/" id |
| `Fields.FillReplacesHoles` | src/sa_api_v2/serializers/fields.py:113 | filling replaces each placeholder, in place, by its value |
| `Fields.Prefix` | src/sa_api_v2/serializers/fields.py:86-89 | "{scheme}://{host}/api/v2" with a request, else "/api/v2" |
| `Fields.ApiReverse` | src/sa_api_v2/serializers/fields.py:80-118 | a ValueError for an unknown view; otherwise prefix + filled route with quoted kwargs + "." + format when a format is given |
| `Fields.ReverseWithoutFormat` | src/sa_api_v2/serializers/fields.py:111-118 | without a format the URL is the prefix followed by the filled, quoted route |
| `Fields.PlaceDetailUrl` | src/sa_api_v2/serializers/fields.py:86-118 | a place's URL is the prefix, then the quoted owner, dataset slug and place id between the route's fixed parts |
| `Fields.FormatSuffix` | src/sa_api_v2/serializers/fields.py:115-116 | any format, even "", appends "." and the format to the URL without one |
| `Fields.UnknownViewRefused` | src/sa_api_v2/serializers/fields.py:106-109 | for example, the tag-detail and place-tag-detail views, which the route table lacks, are refused whatever the arguments |
| `Fields.RouteNeedsItsArguments` | src/sa_api_v2/serializers/fields.py:91-113 | the URL starts with the prefix, and a route missing one of its arguments is a KeyError |
| `Fields.OrElse` | src/sa_api_v2/serializers/fields.py:144-145 | Python's `a if a else b` on optional text |
| `Fields.RelatedFieldFormat` | src/sa_api_v2/serializers/fields.py:145 | the argument, else the field's own format, else the context's |
| `Fields.IdentityFieldFormat` | src/sa_api_v2/serializers/fields.py:261-268 | the argument or the context's format, replaced by the field's own when both are set and differ |
| `Fields.IdentityFormatNeedsAFormat` | src/sa_api_v2/serializers/fields.py:267-268 | a field's own format never turns a missing format into one |
| `Fields.TextKwargs` | src/sa_api_v2/serializers/fields.py:111-112 | the same keys, each value converted to text |
| `Fields.RelatedToRepresentation` | src/sa_api_v2/serializers/fields.py:142-153 | None when the object has no pk; otherwise api_reverse of the resolved kwargs, or the error of either |
| `Fields.IdentityLinkField` | src/sa_api_v2/serializers/fields.py:263 | the field's view name, else the parent's |
| `Fields.IdentityToRepresentation` | src/sa_api_v2/serializers/fields.py:256-271 | None when the object has no pk; otherwise the KeyError of the URL kwargs, or api_reverse of the field's (else the parent's) view with the text kwargs and the identity format rule, or its error |
| `UserSerializer.BiggerAvatar` | src/sa_api_v2/serializers/user.py:35-40 | a URL without a dot is unchanged; otherwise the result keeps the URL's extension from its last dot |
| `UserSerializer.RewriteAtFirstMatch` | src/sa_api_v2/serializers/user.py:35-38 | with a match, the result is the first match's path + "_bigger" + its extension |
| `UserSerializer.NoMatchKeepsUrl` | src/sa_api_v2/serializers/user.py:36-40 | without a match, the URL is returned unchanged |
| `UserSerializer.BiggerAvatarIsRegexRewrite` | src/sa_api_v2/serializers/user.py:35-40 | the closed form agrees with the regular expression's first match: rewritten to path + "_bigger" + ext, or returned unchanged when there is no match |
| `UserSerializer.BiggerAvatarIdempotent` | src/sa_api_v2/serializers/user.py:35-40 | a URL already ending "_bigger.ext" is returned unchanged |
| `UserSerializer.MatchShape` | src/sa_api_v2/serializers/user.py:35 | any match ends its suffix at the last dot, and its path no earlier than the chosen one |
| `UserSerializer.ProviderNamed` | src/sa_api_v2/serializers/user.py:97-102 | exactly twitter, facebook, google-oauth2 and shareabouts have a strategy |
| `UserSerializer.GetOrNone` | src/sa_api_v2/serializers/user.py:81-87 | `get(key, None)` on a dict; a non-dict has no get |
| `UserSerializer.TwitterImageUrl` | src/sa_api_v2/serializers/user.py:30-33 | profile_image_url_https when present, else profile_image_url |
| `UserSerializer.ExtractAvatarUrl` | src/sa_api_v2/serializers/user.py:18-81 | "" for the default strategy; for Twitter the rewritten https (else plain) image URL, an error when it is not text; picture.data.url for Facebook and image.url for Google, an error when a level is missing; the Shareabouts avatar_url or None |
| `UserSerializer.GoogleFullName` | src/sa_api_v2/serializers/user.py:66-68 | givenName + " " + familyName |
| `UserSerializer.ExtractFullName` | src/sa_api_v2/serializers/user.py:21-84 | "" by default; "name" for Twitter and Facebook; the Google full name; the Shareabouts key or None |
| `UserSerializer.ExtractBio` | src/sa_api_v2/serializers/user.py:24-87 | "" by default, then description, about, aboutMe, or the Shareabouts bio or None |
| `UserSerializer.ShareaboutsMissingKeys` | src/sa_api_v2/serializers/user.py:80-87 | the Shareabouts strategy reads missing keys as None |
| `UserSerializer.StrategyFor` | src/sa_api_v2/serializers/user.py:111-117 | the default strategy comes with no data; a known strategy comes with the extra data of an account of that provider |
| `UserSerializer.GetStrategy` | src/sa_api_v2/serializers/user.py:111-117 | the loop returns the first known provider's data and strategy, else (None, default) |
| `UserSerializer.StrategyIsFirstKnown` | src/sa_api_v2/serializers/user.py:111-117 | the first account with a known provider wins; with none, the default strategy is used |
| `UserSerializer.NoSocialUserIsBlank` | src/sa_api_v2/serializers/user.py:17-25 | a user without social accounts gets "" for the name and the avatar |
| `UserSerializer.ProviderType` | src/sa_api_v2/serializers/user.py:127-131 | the first account's provider, or "" |
| `UserSerializer.ProviderId` | src/sa_api_v2/serializers/user.py:133-137 | the first account's uid, or None |
| `UserSerializer.UserFields` | src/sa_api_v2/serializers/user.py:141-154 | the keys name, avatar_url, provider_type, id and username with their values, plus provider_id exactly when private fields are included |
| `UserSerializer.UserRepresentation` | src/sa_api_v2/serializers/user.py:139-155 | {} for no user; otherwise the strategy's name and avatar (or the first of their errors), the id, username and provider type, and provider_id present exactly when the context's include_private_fields is truthy |
| `UserSerializer.TwitterUserAttributes` | src/sa_api_v2/serializers/user.py:139-155 | a user whose first account is Twitter gets the Twitter name and the rewritten https avatar, and without the flag no provider_id |
| `Renderers.CsvRows` | src/sa_api_v2/renderers.py:8-11 | a list is kept; a dict gives its results, or else its features; anything else is a TypeError |
| `Renderers.CsvRowsOfPages` | src/sa_api_v2/renderers.py:10 | a page's non-empty results are its rows; without results, its features; with neither, None |
| `Renderers.GetFeature` | src/sa_api_v2/renderers.py:49-71 | None without geometry; otherwise a Feature whose properties are the dict minus geometry, with "id" exactly when the id is not None |
| `Renderers.FeatureOrSelf` | src/sa_api_v2/renderers.py:37-45 | a dict without geometry is kept; one with geometry becomes its feature, or fails with it; a list or text is kept unless it contains "geometry", where the lookup raises; a number, boolean or None raises |
| `Renderers.Features` | src/sa_api_v2/renderers.py:37-41 | one converted element per item, in order; the first failure escapes |
| `Renderers.GeoJsonValue` | src/sa_api_v2/renderers.py:24-47 | status ≥ 400 passes through; None stays None; a list becomes a FeatureCollection of its converted elements; a FeatureCollection has only its features converted (a missing member is a KeyError, a text member yields its characters); anything else is FeatureOrSelf |
| `Renderers.ListBecomesFeatureCollection` | src/sa_api_v2/renderers.py:34-38 | a list renders as a FeatureCollection with one feature per element, in order |
| `Renderers.FeatureCollectionKeepsMembers` | src/sa_api_v2/renderers.py:39-41 | a FeatureCollection keeps all of its other members |
| `Renderers.CharactersAreKept` | src/sa_api_v2/renderers.py:41 | iterating a text of features yields its one-character strings, each kept as it is, since a character is never a feature |
| `Renderers.FeatureKeepsProperties` | src/sa_api_v2/renderers.py:53-66 | putting the geometry back into the feature's properties gives the input dict |
| `Renderers.NullJsonText` | src/sa_api_v2/renderers.py:81-84 | None renders as "null"; anything else is encoded |
| `Renderers.NullJsonTextDecodes` | src/sa_api_v2/renderers.py:81-84 | with a round-tripping codec, every rendering decodes back to its data |
| `Tags.ColorPatternAsWritten` | src/sa_api_v2/models/tags.py:10 | the compiled pattern accepts every intended colour, and only texts of 4, 5, 7 or 8 characters starting with "#"; TrailingNewlineColorAccepted and ColorPatternsAgree relate it to ValidateColor |
| `Tags.ValidateColor` | src/sa_api_v2/models/tags.py:10-13 | accepts exactly "#" followed by 3 or 6 hex digits; otherwise "Enter a valid color." |
| `Tags.TrailingNewlineColorAccepted` | src/sa_api_v2/models/tags.py:10 | the pattern as written accepts "#abc\n", which the intended validator refuses |
| `Tags.ColorPatternsAgree` | src/sa_api_v2/models/tags.py:10 | the written and the intended pattern agree on texts that do not end in a newline |
| `Tags.ColorExamples` | src/sa_api_v2/models/tags.py:10 | for example, #fff and #A0b1C2 are accepted; #ffff, fff and #ggg are refused |
| `Tags.Lineage` | src/sa_api_v2/models/tags.py:27-33 | the lineage ends with the tag's own name, and a root tag's lineage is its name alone |
| `Tags.TagString` | src/sa_api_v2/models/tags.py:27-33 | the lineage joined by ":" |
| `Tags.ChildTagString` | src/sa_api_v2/models/tags.py:28-31 | a child's string is its parent's string, ":" and its name |
| `Tags.Clean` | src/sa_api_v2/models/tags.py:57-65 | ValidationError exactly when tag and place are set and their datasets differ |
| `Tags.OtherDatasetTagRefused` | src/sa_api_v2/models/tags.py:57-65 | a tag from another dataset is refused whatever the note |
| `Tags.PlaceTagTable.Save` | src/sa_api_v2/models/tags.py:53-55 | clean runs first; the row is appended only when clean passes, so no stored place tag mixes datasets |
| `EmailTemplates.Candidates` | src/sa_api_v2/views/email_templates.py:61-66 | the templates of the matching origins that have one, no more than there are origins; CandidatesMembers and CandidatesInOrder fix exactly which, in origin order |
| `EmailTemplates.CandidatesMembers` | src/sa_api_v2/views/email_templates.py:61-66 | a candidate is exactly the template of a matching origin that has one |
| `EmailTemplates.CandidatesInOrder` | src/sa_api_v2/views/email_templates.py:61-66 | the candidates keep the origins' order: those of a concatenation are those of its parts in turn, one origin giving its template exactly when it matches and has one |
| `EmailTemplates.ForEvent` | src/sa_api_v2/views/email_templates.py:68-73 | the templates for this set (or for every set) and the "add" event, no more than given; ForEventMembers and ForEventInOrder fix exactly which, in order |
| `EmailTemplates.ForEventMembers` | src/sa_api_v2/views/email_templates.py:68-73 | a template is kept exactly when its set is the set name or "" and its event is "add" |
| `EmailTemplates.ForEventInOrder` | src/sa_api_v2/views/email_templates.py:68-73 | the kept templates keep their order, one template kept exactly when it is for this event |
| `EmailTemplates.NonEmpty` | src/sa_api_v2/views/email_templates.py:79-86 | the non-empty BCC entries, no more than given; NonEmptyMembers and NonEmptyInOrder fix exactly which, in order |
| `EmailTemplates.NonEmptyMembers` | src/sa_api_v2/views/email_templates.py:79-86 | the BCC list holds exactly the non-empty entries |
| `EmailTemplates.NonEmptyInOrder` | src/sa_api_v2/views/email_templates.py:79-86 | the BCC entries keep their order, one entry kept exactly when it is non-empty |
| `EmailTemplates.Recipient` | src/sa_api_v2/views/email_templates.py:92-100 | the request's value of a named, present field, else the default recipient |
| `EmailTemplates.ContextFor` | src/sa_api_v2/views/email_templates.py:123-133 | "place" is set exactly for places and "comment" exactly for comments, each to the new object |
| `EmailTemplates.TemplateOutcome` | src/sa_api_v2/views/email_templates.py:78-168 | a template without recipient or BCC sends nothing; a non-text recipient from the request raises; otherwise the blob must decode, and one message goes to the recipient with the BCC list, the rendered subject and body, and the rendered HTML attached exactly when it is non-empty |
| `EmailTemplates.SendEmailNotification` | src/sa_api_v2/views/email_templates.py:50-170 | nothing outside comments and places; otherwise the loop ends at the first send, so at most one e-mail is sent |
| `EmailTemplates.SentByFirstUnskipped` | src/sa_api_v2/views/email_templates.py:75-170 | a sent message comes from the first template that is not skipped |
| `EmailTemplates.SendFirst` | src/sa_api_v2/views/email_templates.py:75-170 | the loop sends nothing exactly when every template is silently skipped |
| `EmailTemplates.SkippedPrefixShift` | src/sa_api_v2/views/email_templates.py:104-116 | a skipped first template extends the run of skipped templates by one |
| `EmailTemplates.ObjectOrNone` | src/sa_api_v2/views/email_templates.py:29-35 | None for no pk or a missing row, else the row |
| `EmailTemplates.ObjectOr404` | src/sa_api_v2/views/email_templates.py:37-41 | Http404 exactly when get_object_or_none gives None |
| `Cors.MetaGet` | src/sa_api_v2/views/mixins.py:19-29 | `META.get(name)`: the header, or None |
| `Cors.AllowOrigin` | src/sa_api_v2/views/mixins.py:18-32 | the Origin header for GET/HEAD/TRACE, for OPTIONS when always allowed, and for an origin client or authenticated user; "*" otherwise |
| `Cors.AnonymousWriteGetsWildcard` | src/sa_api_v2/views/mixins.py:28-32 | an anonymous POST without an origin client gets "*", where the same GET echoes the origin |
| `Cors.CorsHeaders` | src/sa_api_v2/views/mixins.py:18-36 | exactly the four Access-Control headers with their values |
| `Cors.FinalizeResponse` | src/sa_api_v2/views/mixins.py:10-38 | the response keeps its other headers and gains the four Access-Control headers |
| `Cors.MethodsHeaderExample` | src/sa_api_v2/views/mixins.py:34 | for example, GET and POST give the methods header "GET, POST" |
| `ContentNegotiation.RendererFormat` | src/sa_api_v2/views/content_negotiation.py:10-15 | "jsonp" when a callback parameter is present, else the suffix given |
| `ContentNegotiation.ParsedRequest.CorrectContentType` | src/sa_api_v2/views/content_negotiation.py:25-37 | a cross-origin request with a text/plain, empty or absent content type is switched to JSON, in META and in the cached type; other requests are untouched |
| `ContentNegotiation.CorrectedMeta` | src/sa_api_v2/views/content_negotiation.py:29-33 | only CONTENT_TYPE changes, and only for such a request |
| `ContentNegotiation.CorrectionIsStable` | src/sa_api_v2/views/content_negotiation.py:29-33 | a corrected request no longer looks like an XDomainRequest, correcting twice is correcting once, and no other META key changes |
| `ContentNegotiation.OtherRequestsUntouched` | src/sa_api_v2/views/content_negotiation.py:29-33 | without an Origin header, or with another content type, nothing changes |
| `Admin.CloneCandidate` | src/sa_api_v2/admin.py:288 | `'-'.join([slug, str(n)])` is slug + "-" + n |
| `Admin.CandidatesDiffer` | src/sa_api_v2/admin.py:287-289 | different uniquifiers give different candidates |
| `Admin.SiblingSlugs` | src/sa_api_v2/admin.py:284-285 | exactly the slugs of the datasets with the same owner |
| `Admin.UniqueCloneSlug` | src/sa_api_v2/admin.py:287-289 | the search ends, at the first n ≥ 2 whose candidate is not taken |
| `Admin.CloneSlug` | src/sa_api_v2/admin.py:283-292 | the clone's slug differs from every sibling's and is slug-n for the first n ≥ 2 whose candidate no sibling uses |
| `Admin.FirstCloneOfLoneDataset` | src/sa_api_v2/admin.py:283-289 | for example, the first clone of an owner's only dataset, slug "s", is "s-2" |
| `Admin.OwnerAfterSave` | src/sa_api_v2/admin.py:321-327 | a staff user's save gives an ownerless dataset to that user; otherwise the owner is kept |
| `Admin.DataSetForm.SaveModel` | src/sa_api_v2/admin.py:321-328 | the form's owner becomes OwnerAfterSave and the slug is unchanged |
| `Admin.SaveKeepsOwnership` | src/sa_api_v2/admin.py:321-327 | a save never takes a dataset away from its owner, and saving twice is saving once |
| `Admin.Scoped` | src/sa_api_v2/admin.py:118-123 | a superuser sees every row; another user sees exactly the rows of datasets they own (the same rule as the querysets at lines 242-247, 254-259, 307-312, 669-674 and 704-709) |
| `Admin.ScopedInOrder` | src/sa_api_v2/admin.py:118-123 | the shown rows keep their order, as a filter does: a concatenation shows its parts' rows in turn, and one row is shown exactly when it is the user's or the user is a superuser |
| `Admin.ScopedHidesOthers` | src/sa_api_v2/admin.py:307-312 | a non-superuser sees nothing of other owners' rows, which a superuser sees |
| `Admin.TypeOfThing` | src/sa_api_v2/admin.py:679-684 | the admin's type column is the action serializer's target type: "place" for a place, the set name for a submission, and a failure only for neither |
| `Admin.InsertBeforeLast` | src/sa_api_v2/admin.py:364-365 | the new columns go before the last one, which stays last |
| `Admin.SubmissionColumns` | src/sa_api_v2/admin.py:364-365 | the submission list is id, created_datetime, submitter_name, dataset, visible, place_model, set_, data |
| `RainGardenNumbers.QueriesDisjoint` | src/sa_api_v2/management/commands/updateRainGardenNumbers.py:18-27 | no place is both without a number and with an empty one, so chaining the two queries repeats no place |
| `RainGardenNumbers.FirstNumber` | src/sa_api_v2/management/commands/updateRainGardenNumbers.py:34 | the count of places, minus the unnumbered ones, plus one |
| `RainGardenNumbers.Renumber` | src/sa_api_v2/management/commands/updateRainGardenNumbers.py:40-42 | fails exactly when the blob does not decode to an object; otherwise the number as text is set under rain_garden_number |
| `RainGardenNumbers.NumberAt` | src/sa_api_v2/management/commands/updateRainGardenNumbers.py:34-44 | the first number plus the unnumbered places before this one |
| `RainGardenNumbers.UpdateNumbers` | src/sa_api_v2/management/commands/updateRainGardenNumbers.py:16-45 | numbered places are untouched; each unnumbered place, in pk order, gets its NumberAt number; on a decode failure, the places before are done and the rest are untouched |
| `RainGardenNumbers.NumbersDistinct` | src/sa_api_v2/management/commands/updateRainGardenNumbers.py:38-44 | different unnumbered places get different numbers, none below the first |
| `RainGardenNumbers.CountGrows` | src/sa_api_v2/management/commands/updateRainGardenNumbers.py:44 | the count of unnumbered places grows past each unnumbered place |
| `RainGardenNumbers.LastNumberIsPlaceCount` | src/sa_api_v2/management/commands/updateRainGardenNumbers.py:32-34 | the last unnumbered place gets the number of places |
| `RainGardenNumbers.RenumberChangesOnlyTheNumber` | src/sa_api_v2/management/commands/updateRainGardenNumbers.py:40-42 | with a faithful codec, the rewritten blob differs from the old one only in the number |
| `MigrateRainGardens.Validate` | src/sa_api_v2/management/commands/migrateRainGardens.py:212-216 | "NULL" and all-whitespace cells become ""; other cells are kept |
| `MigrateRainGardens.ValidateIdempotent` | src/sa_api_v2/management/commands/migrateRainGardens.py:212-216 | validating twice is validating once; "" stays "" (isspace is false on "") |
| `MigrateRainGardens.KeptPartsMembers` | src/sa_api_v2/management/commands/migrateRainGardens.py:79 | the kept parts are exactly the parts that are non-empty and not "NULL" |
| `MigrateRainGardens.GardenAddress` | src/sa_api_v2/management/commands/migrateRainGardens.py:78-80 | street, city, WA and zip in that order, keeping only parts that are non-empty and not "NULL", joined by ", " |
| `MigrateRainGardens.GardenAddressParts` | src/sa_api_v2/management/commands/migrateRainGardens.py:78-80 | a full address lists street, city, WA and zip joined by ", "; missing parts leave no empty separator; with nothing else, only "WA" is left |
| `MigrateRainGardens.Split` | src/sa_api_v2/management/commands/migrateRainGardens.py:109-110 | at least one piece; a text without a separator is its own piece; a leading separator gives an empty first piece |
| `MigrateRainGardens.SplitPiecesClean` | src/sa_api_v2/management/commands/migrateRainGardens.py:109-110 | no piece of `re.split('[, ]+', …)` holds a comma or space |
| `MigrateRainGardens.SplitConcat` | src/sa_api_v2/management/commands/migrateRainGardens.py:109-110 | the pieces together are the text with its separators removed |
| `MigrateRainGardens.CellSources` | src/sa_api_v2/management/commands/migrateRainGardens.py:109-125 | the sources of a cell are among pavement, roof and other |
| `MigrateRainGardens.SourcesOf` | src/sa_api_v2/management/commands/migrateRainGardens.py:111-124 | every source is pavement, roof or other |
| `MigrateRainGardens.CollectSources` | src/sa_api_v2/management/commands/migrateRainGardens.py:119-124 | the loop collects exactly the sources of the known tokens; unknown tokens are skipped |
| `MigrateRainGardens.CellSourcesNamed` | src/sa_api_v2/management/commands/migrateRainGardens.py:109-124 | a source is reported exactly when a word of the lower-cased cell names it |
| `MigrateRainGardens.Contributor` | src/sa_api_v2/management/commands/migrateRainGardens.py:90-95 | the contributor's name and e-mail when both are given, else the steward's |
| `MigrateRainGardens.VisibleAsWritten` | src/sa_api_v2/management/commands/migrateRainGardens.py:85-153 | as written, the visible flag is true exactly when the garden is marked private |
| `MigrateRainGardens.PrivateGardenVisibleAsWritten` | src/sa_api_v2/management/commands/migrateRainGardens.py:84-153 | as written, a garden marked "YES" becomes a visible place, and one marked "NO" an invisible place |
| `MigrateRainGardens.Visible` | src/sa_api_v2/management/commands/migrateRainGardens.py:84 | visible exactly when not marked private |
| `MigrateRainGardens.FirstMissing` | src/sa_api_v2/management/commands/migrateRainGardens.py:66-110 | none exactly when the row has every column read; otherwise a column it lacks |
| `MigrateRainGardens.RowHasColumns` | src/sa_api_v2/management/commands/migrateRainGardens.py:66-110 | a row lacking no column read has every attribute column, and the e-mail column when a contributor is named |
| `MigrateRainGardens.SaveRow` | src/sa_api_v2/management/commands/migrateRainGardens.py:66-153 | as written: a KeyError for the first missing column; otherwise the contributor or the steward, the address, the sources, every validated attribute, the plain text ones, "raingarden", the privacy, and visible equal to the privacy test |
| `MigrateRainGardens.SaveRowIntended` | src/sa_api_v2/management/commands/migrateRainGardens.py:84-153 | the same row outcome with visible exactly when not marked private, every other attribute unchanged |
| `MigrateRainGardens.VisibilityInverted` | src/sa_api_v2/management/commands/migrateRainGardens.py:84-153 | on every accepted row, the written visible flag is the opposite of the intended one, and equals the privacy flag |
| `MigrateRainGardens.StewardCreditedWithoutContributor` | src/sa_api_v2/management/commands/migrateRainGardens.py:90-95 | a row without a contributor name is credited to the steward, with or without an e-mail column |
| `JsonValues.LoadsDumpsDict` | src/sa_api_v2/management/commands/updateRainGardenNumbers.py:40-42 | with a round-tripping codec, a dumped dict loads back as itself |
| `Strings.ParseStr` | src/sa_api_v2/management/commands/updateRainGardenNumbers.py:41 | `int(str(n)) == n` |
| `Strings.StrInjective` | src/sa_api_v2/admin.py:288 | different numbers print differently |
| `Strings.JoinSnoc` | src/sa_api_v2/models/tags.py:29-31 | joining one more part puts the separator before it |

## Left out

- I/O, logging, `print`, e-mail delivery, template rendering, the database and the cache are not modelled. Their results are parameters or the model's own state.
- Python dict order is not modelled: dicts are maps. Because of this, `list(set(...))` in the sources loop and the `iteritems` order of the sets are not captured.
- Floats are left out: `float(row["Lat"])`, `"POINT(%f %f)"` and the place's distance value.
- The rain-garden image download and attachment (migrateRainGardens.py:186-208) are left out. They are network and file I/O that run after the place is saved.
- The ORM writes of save_row (the place form, the submitter and dataset lookups, `place.save()`) are left out. MigrateRainGardens.SaveRow stops at the attribute values.
- `check_data_permission`, `Origin.match`, GEOS, `urlquote_plus`, `obj.check_jwt`, `make_jwt` and the JSON codec are parameters. They are defined outside the modelled files.
- Django's own `reverse` is not modelled; DataSetRelatedField.get_url (fields.py:174-179) uses it.
- DataBlobProcessor.convert_object (mixins.py:87-94) is left out because nothing calls it.
- AttachmentSerializerMixin.to_representation (mixins.py:119-123) and the ModelSerializer machinery behind `super().to_representation` are left out. They belong to the REST framework.
- FullUserSerializer, DataSetSerializer.to_internal_value, ActionSerializer.get_target and the tag summaries are left out. They only compose the modelled serializers with ORM queries.
- UserAdmin.get_queryset (admin.py:725-731) is not modelled: it filters through a many-valued relation, not by a dataset owner.
- Admin.TypeOfThing: the branch where `obj.thing.place` is None without raising is not modelled. Django's reverse one-to-one accessor raises DoesNotExist instead of returning None.
- Renderers.GeoJsonValue: a FeatureCollection whose "features" member is a dict is reported as not iterable. Python would iterate its keys, whose order a map does not have.
- Renderers.GetFeature: the Python 2 distinction between `str` and `unicode` geometries, and GEOSGeometry values, are reduced to "text or already decoded".
- Cors.FinalizeResponse: a None header value (an absent Origin) is stored as None. HttpResponse's coercion of it to text is not modelled.
- RainGardenNumbers.UpdateNumbers requires strictly ascending primary keys, standing in for `order_by('pk')` and the `sorted` by pk.
- MigrateRainGardens.SaveRow: a short row is not modelled. `csv.DictReader` fills a header column missing from a row with None, where the model reports a KeyError for every missing column.
- MigrateRainGardens.SaveRow does not include the "Image" column, which is read only after the place is saved.

## Findings

| source | as written | input that shows it | evidently intended | confidence | as-written member | corrected member |
|---|---|---|---|---|---|---|
| src/sa_api_v2/models/tags.py:10 | the anchor `$` of the colour pattern also matches, in Python, before a trailing newline | `"#abc\n"` is accepted as a colour | only "#" followed by exactly 3 or 6 hex digits | not executed | `Tags.ColorPatternAsWritten`, with `Tags.TrailingNewlineColorAccepted` | `Tags.ValidateColor` |
| src/sa_api_v2/management/commands/migrateRainGardens.py:85 | `remain_private = row["Remain Private"] == "YES"` is stored as the place's `visible` at line 153 | a row with "Remain Private" = "YES" becomes a visible place | the comment at line 84: a place is not visible when marked private | not executed | `MigrateRainGardens.SaveRow`, with `MigrateRainGardens.VisibilityInverted` | `MigrateRainGardens.SaveRowIntended` |
