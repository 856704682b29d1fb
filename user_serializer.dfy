/**
 * The user serializer and the social-provider data strategies: which
 * provider's data is read, how each provider's record yields an avatar URL,
 * a full name and a bio (including the Twitter avatar-size rewrite), and the
 * privacy of the provider id.
 */
module UserSerializer {
  import opened JsonValues
  import opened Strings

  // ---------------------------------------------------------------------
  // The Twitter avatar rewrite:
  //   re.match('^(?P<path>.*?)(?:_normal|_mini|_bigger|)(?P<ext>\.[^\.]*)$', url)
  // replaced by path + '_bigger' + ext.

  /** The pattern's size suffixes, in the order the alternation tries them. */
  const SizeSuffixes: seq<string> := ["_normal", "_mini", "_bigger", ""]

  /**
   * The pattern matches `url` with the lazy path ending at `p` and the k-th
   * alternative: `.` matches no newline, and `\.[^\.]*$` needs the dot after
   * the suffix to be the last one (`$` matching at the end).
   */
  ghost predicate MatchesAt(url: string, p: int, k: int)
  {
    0 <= k < |SizeSuffixes| && 0 <= p && p + |SizeSuffixes[k]| < |url| &&
    url[p..p + |SizeSuffixes[k]|] == SizeSuffixes[k] && url[p + |SizeSuffixes[k]|] == '.' &&
    (forall j :: p + |SizeSuffixes[k]| < j < |url| ==> url[j] != '.') &&
    (forall j :: 0 <= j < p ==> url[j] != '\n')
  }

  /** The match the engine reports: the shortest path, then the earliest alternative. */
  ghost predicate FirstMatch(url: string, p: int, k: int)
  {
    MatchesAt(url, p, k) &&
    forall p', k' :: MatchesAt(url, p', k') ==> p < p' || (p == p' && k <= k')
  }

  /** The index of the last '.' in `s`, or -1. */
  function LastDot(s: string): (d: int)
    ensures -1 <= d < |s|
    ensures d >= 0 ==> s[d] == '.'
    ensures forall j :: d < j < |s| ==> s[j] != '.'
  {
    if s == [] then -1
    else if s[|s| - 1] == '.' then |s| - 1
    else LastDot(s[..|s| - 1])
  }

  /** Where the lazy path ends, for the last dot at `d`: before the longest size suffix there. */
  function PathEnd(url: string, d: int): (p: int)
    requires 0 <= d < |url|
    ensures 0 <= p <= d
  {
    if d >= 7 && url[d - 7..d] == "_normal" then d - 7
    else if d >= 5 && url[d - 5..d] == "_mini" then d - 5
    else if d >= 7 && url[d - 7..d] == "_bigger" then d - 7
    else d
  }

  predicate HasNewline(s: string)
  {
    exists j :: 0 <= j < |s| && s[j] == '\n'
  }

  /** The avatar URL Twitter's record yields: the rewrite, or the URL as-is when it does not match. */
  function BiggerAvatar(url: string): (r: string)
    ensures LastDot(url) < 0 ==> r == url
    ensures LastDot(url) >= 0 ==> EndsWith(r, url[LastDot(url)..])
  {
    var d := LastDot(url);
    if d < 0 then url
    else
      var p := PathEnd(url, d);
      if HasNewline(url[..p]) then url
      else
        var r := url[..p] + "_bigger" + url[d..];
        assert r[|r| - |url[d..]|..] == url[d..];
        r
  }

  /** The alternative PathEnd chose. */
  function Chosen(url: string, d: int): (k: int)
    requires 0 <= d < |url|
    ensures 0 <= k < |SizeSuffixes| && PathEnd(url, d) + |SizeSuffixes[k]| == d
    ensures url[PathEnd(url, d)..d] == SizeSuffixes[k]
  {
    if d >= 7 && url[d - 7..d] == "_normal" then 0
    else if d >= 5 && url[d - 5..d] == "_mini" then 1
    else if d >= 7 && url[d - 7..d] == "_bigger" then 2
    else 3
  }

  /** Any match puts its suffix right before the last dot, and no earlier than PathEnd. */
  lemma {:induction false} MatchShape(url: string, p: int, k: int)
    requires MatchesAt(url, p, k)
    ensures LastDot(url) == p + |SizeSuffixes[k]|
    ensures PathEnd(url, LastDot(url)) <= p
    ensures PathEnd(url, LastDot(url)) == p ==> Chosen(url, LastDot(url)) <= k
  {
    var d := LastDot(url);
    var e := p + |SizeSuffixes[k]|;
    assert url[p..d] == SizeSuffixes[k];
    if k == 0 {
      assert d >= 7 && url[d - 7..d] == "_normal";
    } else if k == 1 {
      assert url[d - 5..d] == "_mini";
      assert d >= 7 && url[d - 7..d] == "_normal" ==> url[d - 5..d] == url[d - 7..d][2..];
    } else if k == 2 {
      assert url[d - 7..d] == "_bigger";
      assert url[d - 5..d] == url[d - 7..d][2..];
    }
  }

  /**
   * BiggerAvatar is what the regular expression computes: with no match the
   * URL is returned as-is; otherwise the engine's first match is rewritten.
   */
  lemma {:induction false} BiggerAvatarIsRegexRewrite(url: string)
    ensures (forall p, k :: !MatchesAt(url, p, k)) ==> BiggerAvatar(url) == url
    ensures (exists p, k :: MatchesAt(url, p, k)) ==>
      exists p, k :: FirstMatch(url, p, k) &&
        BiggerAvatar(url) == url[..p] + "_bigger" + url[p + |SizeSuffixes[k]|..]
  {
    if exists p, k :: MatchesAt(url, p, k) {
      RewriteAtFirstMatch(url);
    } else {
      NoMatchKeepsUrl(url);
    }
  }

  /** With a match, BiggerAvatar rewrites the engine's first one. */
  lemma RewriteAtFirstMatch(url: string)
    requires exists p, k :: MatchesAt(url, p, k)
    ensures exists p, k ::
      (FirstMatch(url, p, k) && BiggerAvatar(url) == url[..p] + "_bigger" + url[p + |SizeSuffixes[k]|..])
  {
    var p0, k0 :| MatchesAt(url, p0, k0);
    MatchShape(url, p0, k0);
    var d := LastDot(url);
    var p := PathEnd(url, d);
    var k := Chosen(url, d);
    assert !HasNewline(url[..p]) by {
      forall j | 0 <= j < p ensures url[..p][j] != '\n' {
        assert url[j] != '\n';
      }
    }
    assert MatchesAt(url, p, k);
    forall p', k' | MatchesAt(url, p', k') ensures p < p' || (p == p' && k <= k') {
      MatchShape(url, p', k');
    }
    assert FirstMatch(url, p, k);
  }

  /** Without a match, BiggerAvatar returns the URL unchanged. */
  lemma NoMatchKeepsUrl(url: string)
    requires forall p, k :: !MatchesAt(url, p, k)
    ensures BiggerAvatar(url) == url
  {
    var d := LastDot(url);
    if d >= 0 {
      var p := PathEnd(url, d);
      var k := Chosen(url, d);
      if !HasNewline(url[..p]) {
        forall j | 0 <= j < p ensures url[j] != '\n' {
          assert url[..p][j] == url[j];
        }
        assert MatchesAt(url, p, k);
      }
    }
  }

  /** Rewriting an already rewritten URL changes nothing. */
  lemma {:induction false} BiggerAvatarIdempotent(url: string)
    ensures BiggerAvatar(BiggerAvatar(url)) == BiggerAvatar(url)
  {
    var d := LastDot(url);
    if d >= 0 {
      var p := PathEnd(url, d);
      if !HasNewline(url[..p]) {
        var r := url[..p] + "_bigger" + url[d..];
        var d' := p + 7;
        assert r[d'] == '.';
        assert forall j :: d' < j < |r| ==> r[j] == url[j - 7 - p + d];
        LastDotIs(r, d');
        assert r[d' - 7..d'] == "_bigger";
        assert r[d' - 5..d'] == r[d' - 7..d'][2..];
        assert r[..p] == url[..p];
        assert PathEnd(r, d') == p;
        assert r[d'..] == url[d..];
      }
    }
  }

  lemma {:induction false} LastDotIs(s: string, d: int)
    requires 0 <= d < |s| && s[d] == '.'
    requires forall j :: d < j < |s| ==> s[j] != '.'
    ensures LastDot(s) == d
  {
  }

  // ---------------------------------------------------------------------
  // The strategies

  datatype Provider = Twitter | Facebook | Google | Shareabouts

  /** `strategies[provider]`, for the four known provider names. */
  function ProviderNamed(name: string): (r: Option<Provider>)
    ensures r.Some? <==> name in {"twitter", "facebook", "google-oauth2", "shareabouts"}
  {
    if name == "twitter" then Some(Twitter)
    else if name == "facebook" then Some(Facebook)
    else if name == "google-oauth2" then Some(Google)
    else if name == "shareabouts" then Some(Shareabouts)
    else None
  }

  /** A strategy: one of the known providers', or the default one. */
  datatype Strategy = Known(provider: Provider) | DefaultStrategy

  /** `user_info.get(key, None)`. */
  function GetOrNone(info: Json, key: string): (r: Result<Json>)
    ensures info.JDict? ==> r == Success(if key in info.fields then info.fields[key] else JNull)
    ensures !info.JDict? ==> r.Failure?
  {
    if info.JDict? then Success(if key in info.fields then info.fields[key] else JNull)
    else Failure(TypeError("no attribute get"))
  }

  /** is the avatar URL Twitter offers: the https one, else the plain one. */
  function TwitterImageUrl(info: Json): (r: Result<Json>)
    ensures Index(info, "profile_image_url_https").Success? ==> r == Index(info, "profile_image_url_https")
    ensures Index(info, "profile_image_url_https").Failure? ==> r == Index(info, "profile_image_url")
  {
    var https := Index(info, "profile_image_url_https");
    if https.Success? then https else Index(info, "profile_image_url")
  }

  /** extract_avatar_url of each strategy. */
  function ExtractAvatarUrl(strategy: Strategy, info: Json): (r: Result<Json>)
    ensures strategy.DefaultStrategy? ==> r == Success(JStr(""))
    ensures strategy == Known(Twitter) && TwitterImageUrl(info).Success? && TwitterImageUrl(info).value.JStr? ==>
      r == Success(JStr(BiggerAvatar(TwitterImageUrl(info).value.s)))
    ensures strategy == Known(Twitter) && !(TwitterImageUrl(info).Success? && TwitterImageUrl(info).value.JStr?) ==>
      r.Failure?
    ensures strategy == Known(Facebook) ==>
      (r.Success? <==> info.JDict? && "picture" in info.fields && info.fields["picture"].JDict? &&
                       "data" in info.fields["picture"].fields &&
                       Index(info.fields["picture"].fields["data"], "url").Success?) &&
      (r.Success? ==> r.value == info.fields["picture"].fields["data"].fields["url"])
    ensures strategy == Known(Google) ==>
      (r.Success? <==> info.JDict? && "image" in info.fields && Index(info.fields["image"], "url").Success?) &&
      (r.Success? ==> r.value == info.fields["image"].fields["url"])
    ensures strategy == Known(Shareabouts) ==> r == GetOrNone(info, "avatar_url")
  {
    match strategy
    case DefaultStrategy => Success(JStr(""))
    case Known(Twitter) =>
      (match TwitterImageUrl(info)
       case Failure(e) => Failure(e)
       case Success(url) =>
         if url.JStr? then Success(JStr(BiggerAvatar(url.s))) else Failure(TypeError("expected string")))
    case Known(Facebook) =>
      (match Index(info, "picture")
       case Failure(e) => Failure(e)
       case Success(picture) =>
         match Index(picture, "data")
         case Failure(e) => Failure(e)
         case Success(data) => Index(data, "url"))
    case Known(Google) =>
      (match Index(info, "image")
       case Failure(e) => Failure(e)
       case Success(image) => Index(image, "url"))
    case Known(Shareabouts) => GetOrNone(info, "avatar_url")
  }

  /**
   * Google's full name, `name['givenName'] + ' ' + name['familyName']`:
   * the first addition raises before the family name is looked up when the
   * given name is not text.
   */
  function GoogleFullName(info: Json): (r: Result<Json>)
    ensures (Index(info, "name").Success? &&
             Index(Index(info, "name").value, "givenName").Success? &&
             Index(Index(info, "name").value, "familyName").Success? &&
             Index(Index(info, "name").value, "givenName").value.JStr? &&
             Index(Index(info, "name").value, "familyName").value.JStr?) <==> r.Success?
    ensures r.Success? ==>
      r == Success(JStr(Index(Index(info, "name").value, "givenName").value.s + " " +
                        Index(Index(info, "name").value, "familyName").value.s))
    ensures Index(info, "name").Success? && Index(Index(info, "name").value, "givenName").Success? &&
            !Index(Index(info, "name").value, "givenName").value.JStr? ==>
      r.Failure? && r.error.TypeError?
  {
    match Index(info, "name")
    case Failure(e) => Failure(e)
    case Success(name) =>
      match Index(name, "givenName")
      case Failure(e) => Failure(e)
      case Success(given) =>
        if !given.JStr? then Failure(TypeError("cannot concatenate"))
        else
          match Index(name, "familyName")
          case Failure(e) => Failure(e)
          case Success(family) =>
            if family.JStr? then Success(JStr(given.s + " " + family.s))
            else Failure(TypeError("cannot concatenate"))
  }

  /** extract_full_name of each strategy. */
  function ExtractFullName(strategy: Strategy, info: Json): (r: Result<Json>)
    ensures strategy.DefaultStrategy? ==> r == Success(JStr(""))
    ensures strategy == Known(Twitter) || strategy == Known(Facebook) ==> r == Index(info, "name")
    ensures strategy == Known(Google) ==> r == GoogleFullName(info)
    ensures strategy == Known(Shareabouts) ==> r == GetOrNone(info, "full_name")
  {
    match strategy
    case DefaultStrategy => Success(JStr(""))
    case Known(Twitter) => Index(info, "name")
    case Known(Facebook) => Index(info, "name")
    case Known(Google) => GoogleFullName(info)
    case Known(Shareabouts) => GetOrNone(info, "full_name")
  }

  /** extract_bio of each strategy. */
  function ExtractBio(strategy: Strategy, info: Json): (r: Result<Json>)
    ensures strategy.DefaultStrategy? ==> r == Success(JStr(""))
    ensures strategy == Known(Twitter) ==> r == Index(info, "description")
    ensures strategy == Known(Facebook) ==> r == Index(info, "about")
    ensures strategy == Known(Google) ==> r == Index(info, "aboutMe")
    ensures strategy == Known(Shareabouts) ==> r == GetOrNone(info, "bio")
  {
    match strategy
    case DefaultStrategy => Success(JStr(""))
    case Known(Twitter) => Index(info, "description")
    case Known(Facebook) => Index(info, "about")
    case Known(Google) => Index(info, "aboutMe")
    case Known(Shareabouts) => GetOrNone(info, "bio")
  }

  /** The Shareabouts strategy reads missing keys as None. */
  lemma ShareaboutsMissingKeys(info: Dict)
    requires "avatar_url" !in info && "full_name" !in info && "bio" !in info
    ensures ExtractAvatarUrl(Known(Shareabouts), JDict(info)) == Success(JNull)
    ensures ExtractFullName(Known(Shareabouts), JDict(info)) == Success(JNull)
    ensures ExtractBio(Known(Shareabouts), JDict(info)) == Success(JNull)
  {
  }

  // ---------------------------------------------------------------------
  // BaseUserSerializer

  /** One linked social account. */
  datatype SocialAuth = SocialAuth(provider: string, uid: string, extraData: Json)

  /** The provider data and strategy get_strategy picks: the first known provider's. */
  function StrategyFor(auths: seq<SocialAuth>): (r: (Json, Strategy))
    ensures r.1.DefaultStrategy? ==> r.0 == JNull
    ensures r.1.Known? ==>
      exists i :: (0 <= i < |auths| &&
                   ProviderNamed(auths[i].provider) == Some(r.1.provider) && r.0 == auths[i].extraData)
  {
    if auths == [] then (JNull, DefaultStrategy)
    else if ProviderNamed(auths[0].provider).Some? then
      (auths[0].extraData, Known(ProviderNamed(auths[0].provider).value))
    else
      var r := StrategyFor(auths[1..]);
      assert r.1.Known? ==>
        exists i :: (1 <= i < |auths| &&
                     ProviderNamed(auths[i].provider) == Some(r.1.provider) && r.0 == auths[i].extraData) by {
        if r.1.Known? {
          var i :| 0 <= i < |auths[1..]| && ProviderNamed(auths[1..][i].provider) == Some(r.1.provider) &&
                   r.0 == auths[1..][i].extraData;
          assert auths[i + 1] == auths[1..][i];
        }
      }
      r
  }

  /** get_strategy: the first account whose provider has a strategy, or (None, default). */
  method GetStrategy(auths: seq<SocialAuth>) returns (userData: Json, strategy: Strategy)
    ensures (userData, strategy) == StrategyFor(auths)
  {
    for i := 0 to |auths|
      invariant StrategyFor(auths) == StrategyFor(auths[i..])
    {
      assert auths[i..][1..] == auths[i + 1..];
      var provider := auths[i].provider;
      if ProviderNamed(provider).Some? {
        return auths[i].extraData, Known(ProviderNamed(provider).value);
      }
    }
    return JNull, DefaultStrategy;
  }

  /** StrategyFor picks the first account with a known provider, or the default. */
  lemma {:induction false} StrategyIsFirstKnown(auths: seq<SocialAuth>)
    ensures (forall i :: 0 <= i < |auths| ==> ProviderNamed(auths[i].provider).None?) ==>
      StrategyFor(auths) == (JNull, DefaultStrategy)
    ensures forall i :: 0 <= i < |auths| && ProviderNamed(auths[i].provider).Some? &&
                        (forall j :: 0 <= j < i ==> ProviderNamed(auths[j].provider).None?) ==>
      StrategyFor(auths) == (auths[i].extraData, Known(ProviderNamed(auths[i].provider).value))
  {
    if auths != [] {
      StrategyIsFirstKnown(auths[1..]);
      forall i | 0 < i < |auths| && ProviderNamed(auths[i].provider).Some? &&
                 (forall j :: 0 <= j < i ==> ProviderNamed(auths[j].provider).None?)
        ensures StrategyFor(auths) == (auths[i].extraData, Known(ProviderNamed(auths[i].provider).value))
      {
        assert auths[1..][i - 1] == auths[i];
        assert forall j :: 0 <= j < i - 1 ==> auths[1..][j] == auths[j + 1];
      }
    }
  }

  /** A user without social accounts gets "" for the name and the avatar. */
  lemma NoSocialUserIsBlank(info: Json)
    ensures StrategyFor([]) == (JNull, DefaultStrategy)
    ensures ExtractFullName(StrategyFor([]).1, StrategyFor([]).0) == Success(JStr(""))
    ensures ExtractAvatarUrl(StrategyFor([]).1, StrategyFor([]).0) == Success(JStr(""))
  {
  }

  /** get_provider_type: the first account's provider, or "". */
  function ProviderType(auths: seq<SocialAuth>): (r: string)
    ensures auths == [] ==> r == ""
    ensures auths != [] ==> r == auths[0].provider
  {
    if auths == [] then "" else auths[0].provider
  }

  /** get_provider_id: the first account's uid, or None. */
  function ProviderId(auths: seq<SocialAuth>): (r: Json)
    ensures auths == [] ==> r == JNull
    ensures auths != [] ==> r == JStr(auths[0].uid)
  {
    if auths == [] then JNull else JStr(auths[0].uid)
  }

  datatype UserRecord = UserRecord(id: int, username: string, auths: seq<SocialAuth>)

  const IncludePrivateFields := "include_private_fields"

  /**
   * BaseUserSerializer.to_representation: {} for no user; provider_id is
   * kept only when the context's include_private_fields entry is truthy.
   */
  function UserRepresentation(obj: Option<UserRecord>, context: Dict): (r: Result<Dict>)
    ensures obj.None? ==> r == Success(map[])
    ensures obj.Some? ==>
      var (info, strategy) := StrategyFor(obj.value.auths);
      var name := ExtractFullName(strategy, info);
      var avatar := ExtractAvatarUrl(strategy, info);
      (name.Failure? ==> r == Failure(name.error)) &&
      (name.Success? && avatar.Failure? ==> r == Failure(avatar.error)) &&
      (name.Success? && avatar.Success? ==>
         r.Success? && "name" in r.value && "avatar_url" in r.value && r.value["name"] == name.value && r.value["avatar_url"] == avatar.value)
    ensures obj.Some? && r.Success? ==>
      r.value.Keys == {"name", "avatar_url", "provider_type", "id", "username"} +
                      (if Truthy(Get(context, IncludePrivateFields)) then {"provider_id"} else {})
    ensures obj.Some? && r.Success? ==>
      "id" in r.value && "username" in r.value && "provider_type" in r.value &&
      r.value["id"] == JInt(obj.value.id) && r.value["username"] == JStr(obj.value.username) &&
      r.value["provider_type"] == JStr(ProviderType(obj.value.auths)) &&
      ("provider_id" in r.value <==> Truthy(Get(context, IncludePrivateFields))) &&
      ("provider_id" in r.value ==> r.value["provider_id"] == ProviderId(obj.value.auths))
  {
    if obj.None? then Success(map[])
    else
      var user := obj.value;
      var (userData, strategy) := StrategyFor(user.auths);
      match ExtractFullName(strategy, userData)
      case Failure(e) => Failure(e)
      case Success(name) =>
        match ExtractAvatarUrl(strategy, userData)
        case Failure(e) => Failure(e)
        case Success(avatar) =>
          Success(UserFields(user, name, avatar, !(context == map[] || !Truthy(Get(context, IncludePrivateFields)))))
  }

  /** The serialized user's entries; provider_id is dropped unless private fields are included. */
  function UserFields(user: UserRecord, name: Json, avatar: Json, includePrivate: bool): (d: Dict)
    ensures d.Keys == {"name", "avatar_url", "provider_type", "id", "username"} +
                      (if includePrivate then {"provider_id"} else {})
    ensures "name" in d && d["name"] == name && "avatar_url" in d && d["avatar_url"] == avatar
    ensures "id" in d && d["id"] == JInt(user.id) && "username" in d && d["username"] == JStr(user.username)
    ensures "provider_type" in d && d["provider_type"] == JStr(ProviderType(user.auths))
    ensures "provider_id" in d ==> d["provider_id"] == ProviderId(user.auths)
  {
    var data := map[
      "name" := name, "avatar_url" := avatar,
      "provider_type" := JStr(ProviderType(user.auths)),
      "provider_id" := ProviderId(user.auths),
      "id" := JInt(user.id), "username" := JStr(user.username)];
    if includePrivate then data else data - {"provider_id"}
  }

  /** The Twitter avatar and name come from the first Twitter account's data. */
  lemma {:induction false} TwitterUserAttributes(user: UserRecord, info: Dict, url: string, name: string)
    requires user.auths != [] && user.auths[0] == SocialAuth("twitter", user.auths[0].uid, JDict(info))
    requires "profile_image_url_https" in info && info["profile_image_url_https"] == JStr(url)
    requires "name" in info && info["name"] == JStr(name)
    ensures UserRepresentation(Some(user), map[]).Success?
    ensures UserRepresentation(Some(user), map[]).value["name"] == JStr(name)
    ensures UserRepresentation(Some(user), map[]).value["avatar_url"] == JStr(BiggerAvatar(url))
    ensures "provider_id" !in UserRepresentation(Some(user), map[]).value
  {
  }
}
