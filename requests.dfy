/**
 * The parts of an incoming API request that the views, permissions and
 * serializers read: the method, the authenticated user, the credential that
 * authenticated it, the query string, the WSGI environment, the resolved
 * client (API key or CORS origin) and the parsed body.
 */
module Requests {
  import opened JsonValues

  /** A Django user; the anonymous user has username "" and is not authenticated. */
  datatype User = User(username: string, isAuthenticated: bool, isSuperuser: bool)

  const Anonymous: User := User("", false, false)

  /** What `request.auth` holds after authentication. */
  datatype Auth =
    | NoAuth
    | ApiKeyAuth          // an ApiKey model instance
    | TextAuth(text: string)  // a string credential, such as "origin..."
    | OtherAuth           // any other credential object

  /**
   * `request.client`: none, an API key or a CORS origin, each of which may
   * carry the user who owns its dataset.
   */
  datatype Client =
    | NoClient
    | ApiKeyClient(keyOwner: Option<User>)
    | OriginClient(originOwner: Option<User>)
  {
    function Owner(): Option<User>
    {
      match this
      case NoClient => None
      case ApiKeyClient(o) => o
      case OriginClient(o) => o
    }
  }

  datatype Request = Request(
    verb: string,                      // request.method
    user: User,
    auth: Auth,
    allowedUsername: Option<string>,   // request.allowed_username, if set
    query: map<string, string>,        // request.GET / request.query_params
    meta: map<string, string>,         // request.META
    client: Client,
    datasetId: Option<int>,            // request.get_dataset(), if available
    data: Json)                        // request.data: a dict, or a list for a bulk update

  // Query-string parameter names (params.py).
  const IncludeInvisibleParam := "include_invisible"
  const IncludePrivatePlacesParam := "include_private_places"
  const IncludePrivateFieldsParam := "include_private_fields"
  const IncludeSubmissionsParam := "include_submissions"
  const IncludeTagsParam := "include_tags"
  const JwtParam := "token"
}
