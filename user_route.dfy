/** The signed-in user's profile endpoint (src/app/api/user/route.ts): a
    token guard, then the upstream user record projected onto a profile with
    `||` fallbacks and a generated initials avatar. */
module UserRoute {
  import opened Json

  const KeyRequired: string := "API key is required"
  const FetchUserFailed: string := "Failed to fetch user information"
  const AvatarBase: string := "https://api.dicebear.com/7.x/initials/svg?seed="
  const AvatarColors: string := "&backgroundColor=3b82f6&textColor=ffffff"

  /** The engine's message for reading property `k` from `undefined` or
      `null`. */
  function ReadError(base: Option<Json>, k: string): (message: string) {
    "Cannot read properties of " + (if base.None? then "undefined" else "null") + " (reading '" + k + "')"
  }

  /** `base.k`: throws on `undefined` and `null`, otherwise the member (only
      objects have the members read here). */
  function Read(base: Option<Json>, k: string): (r: Outcome<Option<Json>>)
    ensures r.Failure? <==> base.None? || base == Some(JNull)
    ensures r.Success? ==> r.value == Member(base.value, k)
  {
    if base.None? || base == Some(JNull) then Failure(ReadError(base, k))
    else Success(Member(base.value, k))
  }

  /** `base?.k`: `undefined` when the base is `undefined` or `null`. */
  function Chain(base: Option<Json>, k: string): (r: Option<Json>)
    ensures base.None? || base == Some(JNull) ==> r.None?
    ensures !(base.None? || base == Some(JNull)) ==> r == Member(base.value, k)
  {
    if base.None? || base == Some(JNull) then None else Member(base.value, k)
  }

  /** `a || b` where both sides may be `undefined`. */
  function Either(a: Option<Json>, b: Option<Json>): (r: Option<Json>)
    ensures Defined(a) ==> r == a
    ensures !Defined(a) ==> r == b
  {
    if Defined(a) then a else b
  }

  /** `String(v)` as a template literal writes it; `str` stands for the
      engine's conversion of values other than strings and `undefined`. */
  function TemplateText(v: Option<Json>, str: Json -> string): (t: string)
    ensures v.None? ==> t == "undefined"
    ensures v.Some? && v.value.JStr? ==> t == v.value.s
  {
    match v
    case None => "undefined"
    case Some(JStr(s)) => s
    case Some(j) => str(j)
  }

  /** `getAvatarUrl`: the initials avatar seeded with the given text. */
  function AvatarUrl(seed: string): (url: string)
    ensures |url| == |AvatarBase| + |seed| + |AvatarColors|
    ensures url[..|AvatarBase|] == AvatarBase
    ensures url[|AvatarBase|..|AvatarBase| + |seed|] == seed
  {
    AvatarBase + seed + AvatarColors
  }

  /** Different seeds give different avatars: the seed can be read back from
      the URL. */
  lemma AvatarUrlInjective(a: string, b: string)
    requires AvatarUrl(a) == AvatarUrl(b)
    ensures a == b
  {
    var ua, ub := AvatarUrl(a), AvatarUrl(b);
    assert |a| == |b|;
    assert a == ua[|AvatarBase|..|AvatarBase| + |a|] == ub[|AvatarBase|..|AvatarBase| + |b|] == b;
  }

  datatype Profile = Profile(name: Option<Json>, bio: Json, avatarUrl: string, website: Json)

  datatype UserInfo = UserInfo(
    id: Option<Json>,
    username: Option<Json>,
    email: Option<Json>,
    profile: Profile,
    plan: Json,
    usage: Json,
    isEmailVerified: Json)

  datatype UserResponse =
    | Unauthorized401(error: string)
    | Ok200(data: UserInfo)
    | Error500(error: string)

  /** How a request upstream ended: it threw (with the error's message), or
      a response arrived with its `ok` flag and its body, which `json()`
      parsed or failed to parse. */
  datatype Upstream =
    | Threw(message: string)
    | Answered(ok: bool, body: Outcome<Json>)

  /** `profile?.name || profile?.displayName || data.username`. */
  function DisplayName(data: Json, profile: Option<Json>): (name: Option<Json>)
    ensures Defined(Chain(profile, "name")) ==> name == Chain(profile, "name")
    ensures !Defined(Chain(profile, "name")) && Defined(Chain(profile, "displayName")) ==> name == Chain(profile, "displayName")
    ensures !Defined(Chain(profile, "name")) && !Defined(Chain(profile, "displayName")) ==> name == Member(data, "username")
    ensures Defined(Member(data, "username")) ==> Defined(name)
  {
    Either(Either(Chain(profile, "name"), Chain(profile, "displayName")), Member(data, "username"))
  }

  /** The response body built from the user record `data` and its
      `profile`. */
  function Project(data: Json, profile: Option<Json>, str: Json -> string): (u: UserInfo)
    ensures u.profile.name == DisplayName(data, profile)
    ensures u.profile.avatarUrl == AvatarUrl(TemplateText(DisplayName(data, profile), str))
    ensures u.profile.bio == Or(Either(Chain(profile, "bio"), Chain(profile, "description")), JStr(""))
    ensures u.profile.website == Or(Either(Chain(profile, "website"), Chain(profile, "url")), JStr(""))
    ensures u.plan == Or(Member(data, "plan"), JStr("FREE"))
    ensures u.usage == Or(Member(data, "usage"), JObj([]))
    ensures u.isEmailVerified == Or(Member(data, "isEmailVerified"), JBool(false))
    ensures u.id == Member(data, "id") && u.username == Member(data, "username") && u.email == Member(data, "email")
  {
    var name := DisplayName(data, profile);
    UserInfo(
      Member(data, "id"),
      Member(data, "username"),
      Member(data, "email"),
      Profile(
        name,
        Or(Either(Chain(profile, "bio"), Chain(profile, "description")), JStr("")),
        AvatarUrl(TemplateText(name, str)),
        Or(Either(Chain(profile, "website"), Chain(profile, "url")), JStr(""))),
      Or(Member(data, "plan"), JStr("FREE")),
      Or(Member(data, "usage"), JObj([])),
      Or(Member(data, "isEmailVerified"), JBool(false)))
  }

  /** `error.message || 'Failed to fetch user information'` in the catch. */
  function Fail(message: string): (r: UserResponse)
    ensures r.Error500? && r.error != ""
  {
    Error500(if message != "" then message else FetchUserFailed)
  }

  /** The message of the error thrown for a response that is not ok:
      `errorData.error?.message || 'Failed to fetch user information'`. */
  function UpstreamFailure(errorData: Json, str: Json -> string): (r: UserResponse)
    ensures r.Error500?
    ensures errorData == JNull ==> r == Error500(ReadError(Some(JNull), "error"))
    ensures errorData != JNull ==>
      var message := Chain(Member(errorData, "error"), "message");
      && (!Defined(message) ==> r == Error500(FetchUserFailed))
      && (Defined(message) && message.value.JStr? ==> r == Error500(message.value.s))
      && (Defined(message) && TemplateText(message, str) != "" ==> r == Error500(TemplateText(message, str)))
      && (Defined(message) && TemplateText(message, str) == "" ==> r == Error500(FetchUserFailed))
  {
    match Read(Some(errorData), "error")
    case Failure(m) => Fail(m)
    case Success(e) =>
      var message := Chain(e, "message");
      Fail(if Defined(message) then TemplateText(message, str) else FetchUserFailed)
  }

  /** `GET`. `token` is the `x-apify-token` header, `user` the request to
      `/v2/users/me`, `account` the request to `/v2/users/me/account`, whose
      outcome is only logged. */
  function Get(token: Option<string>, user: Upstream, account: Upstream, str: Json -> string): (r: UserResponse)
    ensures r.Unauthorized401? <==> token.None? || token == Some("")
    ensures r.Unauthorized401? ==> r.error == KeyRequired
    ensures r.Error500? ==> r.error != ""
    ensures user.Threw? && r.Error500? ==> r.error == (if user.message != "" then user.message else FetchUserFailed)
    ensures token.Some? && token != Some("") && user.Answered? && user.body.Failure? ==>
      r == Error500(if user.body.error != "" then user.body.error else FetchUserFailed)
    ensures token.Some? && token != Some("") && user.Answered? && !user.ok && user.body.Success? ==>
      r == UpstreamFailure(user.body.value, str)
    ensures r.Ok200? <==>
      && token.Some? && token != Some("") && user.Answered? && user.ok && user.body.Success?
      && Member(user.body.value, "data").Some? && Member(user.body.value, "data") != Some(JNull)
    ensures r.Ok200? ==>
      var data := Member(user.body.value, "data").value;
      r.data == Project(data, Member(data, "profile"), str)
  {
    if token.None? || token == Some("") then Unauthorized401(KeyRequired)
    else
      match user
      case Threw(m) => Fail(m)
      case Answered(ok, body) =>
        match body
        case Failure(m) => Fail(m)
        case Success(json) =>
          if !ok then UpstreamFailure(json, str)
          else
            match Read(Some(json), "data")
            case Failure(m) => Fail(m)
            case Success(data) =>
              match Read(data, "profile")
              case Failure(m) => Fail(m)
              case Success(profile) => Ok200(Project(data.value, profile, str))
  }

  /** A missing or empty token is refused before anything upstream is
      looked at: the answer is the same whatever the upstream would say. */
  lemma TokenGuardFirst(token: Option<string>, user: Upstream, user': Upstream,
                        account: Upstream, account': Upstream, str: Json -> string)
    requires token.None? || token == Some("")
    ensures Get(token, user, account, str) == Get(token, user', account', str) == Unauthorized401(KeyRequired)
  {
  }

  /** The account request never changes the answer. */
  lemma AccountIgnored(token: Option<string>, user: Upstream, account: Upstream, account': Upstream,
                       str: Json -> string)
    ensures Get(token, user, account, str) == Get(token, user, account', str)
  {
  }

  /** A user record without `plan`, `usage` or `isEmailVerified` is shown
      as a FREE plan with no usage and an unverified email; and the avatar
      always spells the displayed name. */
  lemma ProfileDefaults(token: Option<string>, user: Upstream, account: Upstream, str: Json -> string)
    requires Get(token, user, account, str).Ok200?
    ensures var u := Get(token, user, account, str).data;
            var data := Member(user.body.value, "data").value;
            && (Member(data, "plan").None? ==> u.plan == JStr("FREE"))
            && (Member(data, "usage").None? ==> u.usage == JObj([]))
            && (Member(data, "isEmailVerified").None? ==> u.isEmailVerified == JBool(false))
            && Truthy(u.plan) && Truthy(u.usage)
            && u.profile.avatarUrl == AvatarUrl(TemplateText(u.profile.name, str))
  {
  }
}
