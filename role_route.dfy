/** `GET /api/users/role`: checks the bearer header, verifies the token with
    the identity provider and looks the caller's role up in the `users`
    table, failing closed to `{ role: null }`. */
module RoleRoute {
  import opened Common
  import opened Json
  import opened Strings
  import opened Http

  const BEARER := "Bearer "
  const MISSING_HEADER := "Missing or invalid authorization header"
  const INVALID_TOKEN := "Invalid or expired token"

  /** `{ data: { user }, error }` of `auth.getUser()` on the token's client. */
  datatype Verification = Verification(user: Option<User>, failed: bool)

  /** `{ data, error }` of `.from('users').select('role').eq('id', id).single()`. */
  datatype RoleQuery = QueryFailed(message: string) | Found(data: Json)

  /** `authHeader.split(' ')[1]`: the text after the first space up to the
      next space or the end of the header. */
  function BearerToken(header: string): (token: string)
    requires StartsWith(header, BEARER)
    ensures StartsWith(header, BEARER + token)
    ensures ' ' !in token
    ensures |header| == |BEARER| + |token| || header[|BEARER| + |token|] == ' '
  {
    var rest := header[|BEARER|..];
    assert header == "Bearer" + [' '] + rest;
    SplitAtFirstSep("Bearer", ' ', rest);
    FirstPiece(rest, ' ');
    var token := Split(header, ' ')[1];
    assert token == Split(rest, ' ')[0];
    assert (BEARER + token) == header[..|BEARER| + |token|];
    token
  }

  /** A token without spaces survives the round trip through the header the
      client builds, `Bearer ${token}`. */
  lemma BearerTokenOfHeader(token: string)
    requires ' ' !in token
    ensures StartsWith(BEARER + token, BEARER)
    ensures BearerToken(BEARER + token) == token
  {
    var header := BEARER + token;
    assert header[..|BEARER|] == BEARER;
    var t := BearerToken(header);
    assert header[|BEARER|..] == token;
    assert t == header[|BEARER|..|BEARER| + |t|];
  }

  /** The client the role is read with: the service-role client when a
      (non-empty) service key is configured, the caller's own client otherwise. */
  function RoleClient(serviceKey: Option<string>,
                      userLookup: string -> Call<RoleQuery>,
                      adminLookup: string -> Call<RoleQuery>): string -> Call<RoleQuery>
  {
    if serviceKey.Some? && serviceKey.value != "" then adminLookup else userLookup
  }

  /** `{ role: v }`. */
  function RoleBody(v: Json): Json {
    Obj(map["role" := v])
  }

  /** The part of the handler after the header check, for a given token. */
  function RoleForToken(token: string, verify: string -> Call<Verification>,
                        lookup: string -> Call<RoleQuery>): (r: Response)
    ensures verify(token).Threw? ==> r == ErrorResponse(500, INTERNAL_ERROR)
    ensures verify(token).Returned? &&
            (verify(token).value.failed || verify(token).value.user.None?) ==>
              r == ErrorResponse(401, INVALID_TOKEN)
    ensures r.status in {200, 401, 500}
    ensures r.status == 401 ==> r == ErrorResponse(401, INVALID_TOKEN)
    ensures r.status == 200 ==> r.body.Obj? && r.body.fields.Keys == {"role"}
    // once the token verifies as a user, the answer follows the role lookup
    ensures verify(token).Returned? && !verify(token).value.failed && verify(token).value.user.Some? ==>
      var q := lookup(verify(token).value.user.value.id);
      && (q.Threw? ==> r == ErrorResponse(500, INTERNAL_ERROR))
      && (q.Returned? && q.value.QueryFailed? ==> r == Response(200, RoleBody(Null)))
      && (q.Returned? && q.value.Found? && !Truthy(OptGet(q.value.data, "role")) ==>
            r == Response(200, RoleBody(Null)))
      && (q.Returned? && q.value.Found? && Truthy(OptGet(q.value.data, "role")) ==>
            r == Response(200, RoleBody(OptGet(q.value.data, "role"))))
  {
    match verify(token)
    case Threw(_) => ErrorResponse(500, INTERNAL_ERROR)
    case Returned(v) =>
      if v.failed || v.user.None? then ErrorResponse(401, INVALID_TOKEN)
      else
        match lookup(v.user.value.id)
        case Threw(_) => ErrorResponse(500, INTERNAL_ERROR)
        case Returned(QueryFailed(_)) => Response(200, RoleBody(Null))
        case Returned(Found(data)) => Response(200, RoleBody(Or(OptGet(data, "role"), Null)))
  }

  /** The `GET` handler. */
  function GetRole(header: Option<string>, verify: string -> Call<Verification>,
                   serviceKey: Option<string>, userLookup: string -> Call<RoleQuery>,
                   adminLookup: string -> Call<RoleQuery>): (r: Response)
    ensures r.status in {200, 401, 500}
    ensures r == ErrorResponse(401, MISSING_HEADER) <==>
            header.None? || !StartsWith(header.value, BEARER)
    ensures header.Some? && StartsWith(header.value, BEARER) ==>
            r == RoleForToken(BearerToken(header.value), verify,
                              RoleClient(serviceKey, userLookup, adminLookup))
  {
    if header.None? || !StartsWith(header.value, BEARER) then
      ErrorResponse(401, MISSING_HEADER)
    else
      assert MISSING_HEADER[0] != INVALID_TOKEN[0];
      assert Message("error", MISSING_HEADER).fields["error"]
          != Message("error", INVALID_TOKEN).fields["error"];
      RoleForToken(BearerToken(header.value), verify,
                   RoleClient(serviceKey, userLookup, adminLookup))
  }

  /** The `users` table holds `v` as the role of the user the token verifies as. */
  ghost predicate StoredRole(token: string, verify: string -> Call<Verification>,
                             lookup: string -> Call<RoleQuery>, v: Json)
  {
    && verify(token).Returned?
    && !verify(token).value.failed
    && verify(token).value.user.Some?
    && lookup(verify(token).value.user.value.id).Returned?
    && lookup(verify(token).value.user.value.id).value.Found?
    && OptGet(lookup(verify(token).value.user.value.id).value.data, "role") == v
  }

  /** Fail-closed: a 200 answer carries either `role: null` or a truthy role
      the table really holds for the verified caller; a failed verification,
      a failed lookup, a missing row or a falsy stored role all give null,
      never an elevated role. */
  lemma RoleFailsClosed(header: Option<string>, verify: string -> Call<Verification>,
                        serviceKey: Option<string>, userLookup: string -> Call<RoleQuery>,
                        adminLookup: string -> Call<RoleQuery>)
    ensures var r := GetRole(header, verify, serviceKey, userLookup, adminLookup);
      r.status == 200 ==>
        && header.Some? && StartsWith(header.value, BEARER)
        && r.body.Obj? && "role" in r.body.fields
        && r.body == RoleBody(r.body.fields["role"])
        && (r.body.fields["role"] == Null
            || (Truthy(r.body.fields["role"])
                && StoredRole(BearerToken(header.value), verify,
                              RoleClient(serviceKey, userLookup, adminLookup),
                              r.body.fields["role"])))
  {
  }

  /** Conversely, a verified caller whose row holds a truthy role gets it. */
  lemma StoredRoleIsReturned(token: string, verify: string -> Call<Verification>,
                             serviceKey: Option<string>, userLookup: string -> Call<RoleQuery>,
                             adminLookup: string -> Call<RoleQuery>, v: Json)
    requires ' ' !in token
    requires StoredRole(token, verify, RoleClient(serviceKey, userLookup, adminLookup), v)
    requires Truthy(v)
    ensures GetRole(Some(BEARER + token), verify, serviceKey, userLookup, adminLookup)
            == Response(200, RoleBody(v))
  {
    BearerTokenOfHeader(token);
  }
}
