/** The authentication provider: session and role state, the role cached in
    `localStorage` under a fixed key, role resolution through the role route,
    sign-in, sign-up, and the storage purge of sign-out. */
module AuthContext {
  import opened Common
  import opened Json
  import opened Strings
  import opened Http
  import opened WebStorage
  import RoleRoute

  const ROLE_STORAGE_KEY := "gohf-user-role"
  const NO_PROVIDER := "useAuth must be used within an AuthProvider"

  /** Keys sign-out treats as identity-provider artifacts. */
  predicate IsAuthArtifactKey(key: string) {
    StartsWith(key, "sb-") || Contains(key, "supabase") || Contains(key, "auth")
  }

  /** The outside world as `fetchUserRole` sees it: the provider's current
      session, and the reply to a role request carrying a given
      `Authorization` header. */
  datatype RoleEnv = RoleEnv(current: Call<Option<Session>>, request: string -> Call<Response>)

  /** `data?.role || null` for a role read out of a reply body. A truthy role
      that is not a string is read as null here. */
  function RoleText(v: Json): (r: Option<string>)
    ensures r.Some? <==> v.Str? && v.s != ""
    ensures r.Some? ==> v == Str(r.value)
  {
    if v.Str? && v.s != "" then Some(v.s) else None
  }

  /** `fetchUserRole`: every failure degrades to null, never to a thrown error. */
  function FetchUserRole(env: RoleEnv): (r: Option<string>)
    ensures env.current.Threw? ==> r.None?
    ensures env.current.Returned? && env.current.value.None? ==> r.None?
    ensures env.current.Returned? && env.current.value.Some? &&
            env.current.value.value.accessToken == "" ==>
              r.None?
    ensures r.Some? ==>
      && env.current.Returned? && env.current.value.Some?
      && var token := env.current.value.value.accessToken;
      && token != ""
      && env.request("Bearer " + token).Returned?
      && IsOk(env.request("Bearer " + token).value.status)
      && OptGet(env.request("Bearer " + token).value.body, "role") == Str(r.value)
      && r.value != ""
    // an ok reply whose `role` is a non-empty string gives that string
    ensures env.current.Returned? && env.current.value.Some? &&
            env.current.value.value.accessToken != "" ==>
      var reply := env.request("Bearer " + env.current.value.value.accessToken);
      reply.Returned? && IsOk(reply.value.status) &&
      OptGet(reply.value.body, "role").Str? && OptGet(reply.value.body, "role").s != "" ==>
        r == Some(OptGet(reply.value.body, "role").s)
  {
    match env.current
    case Threw(_) => None
    case Returned(session) =>
      if session.None? || session.value.accessToken == "" then None
      else
        match env.request("Bearer " + session.value.accessToken)
        case Threw(_) => None
        case Returned(response) =>
          if !IsOk(response.status) then None
          else RoleText(OptGet(response.body, "role"))
  }

  /** A failed reply, a non-2xx status or a reply without a non-empty role
      all give null. */
  lemma FetchFailsToNull(env: RoleEnv)
    requires env.current.Returned? && env.current.value.Some?
    requires env.current.value.value.accessToken != ""
    ensures var reply := env.request("Bearer " + env.current.value.value.accessToken);
      (reply.Threw? || !IsOk(reply.value.status) || !OptGet(reply.value.body, "role").Str?
       || OptGet(reply.value.body, "role") == Str("")) ==> FetchUserRole(env).None?
  {
  }

  /** End to end with the role route: a role the client accepts is one the
      `users` table holds for the user the session's token verifies as. */
  lemma FetchedRoleIsStored(s: Session, verify: string -> Call<RoleRoute.Verification>,
                            serviceKey: Option<string>,
                            userLookup: string -> Call<RoleRoute.RoleQuery>,
                            adminLookup: string -> Call<RoleRoute.RoleQuery>)
    requires ' ' !in s.accessToken
    ensures var env := RoleEnv(Returned(Some(s)),
                               h => Returned(RoleRoute.GetRole(Some(h), verify, serviceKey,
                                                               userLookup, adminLookup)));
      FetchUserRole(env).Some? ==>
        RoleRoute.StoredRole(s.accessToken, verify,
                             RoleRoute.RoleClient(serviceKey, userLookup, adminLookup),
                             Str(FetchUserRole(env).value))
  {
    var header := RoleRoute.BEARER + s.accessToken;
    RoleRoute.BearerTokenOfHeader(s.accessToken);
    RoleRoute.RoleFailsClosed(Some(header), verify, serviceKey, userLookup, adminLookup);
  }

  /** And conversely: a non-empty role string stored for the verified user
      reaches the client. */
  lemma StoredRoleIsFetched(s: Session, verify: string -> Call<RoleRoute.Verification>,
                            serviceKey: Option<string>,
                            userLookup: string -> Call<RoleRoute.RoleQuery>,
                            adminLookup: string -> Call<RoleRoute.RoleQuery>, role: string)
    requires s.accessToken != "" && ' ' !in s.accessToken && role != ""
    requires RoleRoute.StoredRole(s.accessToken, verify,
                                  RoleRoute.RoleClient(serviceKey, userLookup, adminLookup),
                                  Str(role))
    ensures FetchUserRole(RoleEnv(Returned(Some(s)),
                                  h => Returned(RoleRoute.GetRole(Some(h), verify, serviceKey,
                                                                  userLookup, adminLookup))))
            == Some(role)
  {
    RoleRoute.StoredRoleIsReturned(s.accessToken, verify, serviceKey, userLookup,
                                   adminLookup, Str(role));
  }

  /** `signIn`: the provider's error is returned as it is, a thrown error
      becomes `{ error }`. */
  function SignIn(reply: Call<Option<Error>>): (error: Option<Error>)
    ensures reply.Returned? ==> error == reply.value
    ensures reply.Threw? ==> error == Some(reply.error)
  {
    match reply
    case Returned(e) => e
    case Threw(e) => Some(e)
  }

  /** `{ data: { user }, error }` of the provider's `signUp`. */
  datatype SignUpReply = SignUpReply(user: Option<User>, error: Option<Error>)

  /** The row written to the `users` table for a new account. */
  datatype Profile = Profile(id: string, email: string, role: string)

  /** What `signUp` does: the error it returns and the profile row, if any,
      it asks the database to insert. */
  datatype SignUpResult = SignUpResult(error: Option<Error>, inserted: Option<Profile>)

  /** `signUp`. `insert` is the outcome of the profile insert, consulted only
      when the provider returned a user. */
  function SignUp(reply: Call<SignUpReply>, insert: Call<Option<Error>>): (r: SignUpResult)
    ensures reply.Threw? ==> r == SignUpResult(Some(reply.error), None)
    ensures reply.Returned? && reply.value.error.Some? ==>
              r == SignUpResult(reply.value.error, None)
    ensures r.inserted.Some? <==>
              reply.Returned? && reply.value.error.None? && reply.value.user.Some?
    ensures r.inserted.Some? ==>
              r.inserted.value == Profile(reply.value.user.value.id,
                                          reply.value.user.value.email, "member")
    // a failed profile insert is only logged: the sign-up still succeeds
    ensures reply.Returned? && reply.value.error.None? && insert.Returned? ==> r.error.None?
    ensures reply.Returned? && reply.value.error.None? && reply.value.user.None? ==> r.error.None?
    ensures r.inserted.Some? && insert.Threw? ==> r.error == Some(insert.error)
  {
    match reply
    case Threw(e) => SignUpResult(Some(e), None)
    case Returned(SignUpReply(user, error)) =>
      if error.Some? then SignUpResult(error, None)
      else if user.None? then SignUpResult(None, None)
      else
        var row := Profile(user.value.id, user.value.email, "member");
        match insert
        case Threw(e) => SignUpResult(Some(e), Some(row))
        case Returned(_) => SignUpResult(None, Some(row))
  }

  /** The cache after a role resolution: with no session user the role key is
      removed; with one, the fetched role is written when non-null and the
      table is left as it was otherwise. */
  function CacheAfterResolution(items: map<string, string>, hasUser: bool,
                                fetched: Option<string>): (r: map<string, string>)
    ensures !hasUser ==> ROLE_STORAGE_KEY !in r
    ensures hasUser && fetched.Some? ==> ROLE_STORAGE_KEY in r && r[ROLE_STORAGE_KEY] == fetched.value
    // a null fetch for a session user leaves the cache, stale role included, as it was
    ensures hasUser && fetched.None? ==> r == items
    ensures forall k | k != ROLE_STORAGE_KEY :: (k in r <==> k in items)
    ensures forall k | k != ROLE_STORAGE_KEY && k in r :: r[k] == items[k]
  {
    if !hasUser then items - {ROLE_STORAGE_KEY}
    else if fetched.Some? then items[ROLE_STORAGE_KEY := fetched.value]
    else items
  }

  /** The only way the cache can disagree with the role just resolved is a
      session user whose fetch gave null while an older role was cached:
      that older role stays behind. */
  lemma CacheDisagreesOnlyWhenStale(items: map<string, string>, hasUser: bool,
                                    fetched: Option<string>)
    ensures var role := if hasUser then fetched else None;
      var cached := CacheAfterResolution(items, hasUser, fetched);
      var cachedRole := if ROLE_STORAGE_KEY in cached then Some(cached[ROLE_STORAGE_KEY]) else None;
      cachedRole != role <==> hasUser && fetched.None? && ROLE_STORAGE_KEY in items
  {
  }

  /** `localStorage` after a sign-out whose provider call returned: the role
      key and every identity-provider artifact are gone. */
  function PurgedLocal(items: map<string, string>): (r: map<string, string>)
    ensures ROLE_STORAGE_KEY !in r
    ensures forall k | k in r :: !IsAuthArtifactKey(k)
    ensures forall k | k in items && k != ROLE_STORAGE_KEY && !IsAuthArtifactKey(k) ::
              k in r && r[k] == items[k]
    ensures forall k | k in r :: k in items
  {
    Without(items - {ROLE_STORAGE_KEY}, IsAuthArtifactKey)
  }

  /** Signing out twice leaves the same storage as signing out once. */
  lemma PurgeIdempotent(items: map<string, string>)
    ensures PurgedLocal(PurgedLocal(items)) == PurgedLocal(items)
    ensures Without(Without(items, IsAuthArtifactKey), IsAuthArtifactKey)
            == Without(items, IsAuthArtifactKey)
  {
    var once := PurgedLocal(items);
    assert PurgedLocal(once).Keys == once.Keys;
    WithoutIdempotent(items, IsAuthArtifactKey);
  }

  /** One `Object.keys(storage).forEach(...)` purge loop of `signOut`. */
  method PurgeAuthArtifacts(store: Storage)
    modifies store
    ensures store.items == Without(old(store.items), IsAuthArtifactKey)
  {
    var keys := store.items.Keys;
    while keys != {}
      invariant keys <= old(store.items).Keys
      invariant forall k :: k in store.items <==>
                  k in old(store.items) && (k in keys || !IsAuthArtifactKey(k))
      invariant forall k | k in store.items :: store.items[k] == old(store.items)[k]
      decreases keys
    {
      var key :| key in keys;
      if IsAuthArtifactKey(key) {
        store.RemoveItem(key);
      }
      keys := keys - {key};
    }
    assert store.items.Keys == Without(old(store.items), IsAuthArtifactKey).Keys;
  }

  /** State observed at the moment sign-out calls the identity provider. */
  datatype SignOutSnapshot = SignOutSnapshot(user: Option<User>, session: Option<Session>,
                                             role: Option<string>,
                                             local: map<string, string>,
                                             sessionItems: map<string, string>)

  class AuthProvider {
    var user: Option<User>
    var session: Option<Session>
    var role: Option<string>
    var loading: bool
    /** `typeof window !== 'undefined'`. */
    const hasWindow: bool
    const local: Storage
    const sessionStore: Storage

    ghost predicate Valid()
      reads this
    {
      local != sessionStore
    }

    /** The provider's initial state: the role is read from the cache when a
        window exists, and is null otherwise. */
    constructor (hasWindow: bool, local: Storage, sessionStore: Storage)
      requires local != sessionStore
      ensures Valid()
      ensures this.hasWindow == hasWindow && this.local == local && this.sessionStore == sessionStore
      ensures user.None? && session.None? && loading
      ensures role == if hasWindow then local.GetItem(ROLE_STORAGE_KEY) else None
    {
      this.hasWindow := hasWindow;
      this.local := local;
      this.sessionStore := sessionStore;
      user := None;
      session := None;
      role := if hasWindow then local.GetItem(ROLE_STORAGE_KEY) else None;
      loading := true;
    }

    /** `initializeAuth`: `initial` is the outcome of `getSession()`. */
    method Initialize(initial: Call<Option<Session>>, env: RoleEnv)
      requires Valid()
      modifies this, local
      ensures Valid() && !loading
      ensures initial.Threw? ==>
        user == old(user) && session == old(session) && role == old(role) &&
        local.items == old(local.items)
      ensures initial.Returned? ==>
        var s := initial.value;
        var hasUser := s.Some? && s.value.user.Some?;
        && (hasUser ==> session == s && user == s.value.user)
        && (!hasUser ==> session == old(session) && user == old(user))
        && role == (if hasUser then FetchUserRole(env) else None)
        && local.items == CacheAfterResolution(old(local.items), hasUser, FetchUserRole(env))
      ensures sessionStore.items == old(sessionStore.items)
    {
      match initial {
        case Threw(_) =>
        case Returned(s) =>
          if s.Some? && s.value.user.Some? {
            session := s;
            user := s.value.user;
            var userRole := FetchUserRole(env);
            role := userRole;
            if userRole.Some? {
              local.SetItem(ROLE_STORAGE_KEY, userRole.value);
            }
          } else {
            local.RemoveItem(ROLE_STORAGE_KEY);
            role := None;
          }
      }
      loading := false;
    }

    /** The `onAuthStateChange` handler, run once per event. */
    method OnAuthStateChange(current: Option<Session>, env: RoleEnv)
      requires Valid()
      modifies this, local
      ensures Valid() && !loading
      ensures session == current
      ensures user == if current.Some? then current.value.user else None
      ensures var hasUser := current.Some? && current.value.user.Some?;
        && role == (if hasUser then FetchUserRole(env) else None)
        && local.items == CacheAfterResolution(old(local.items), hasUser, FetchUserRole(env))
      ensures sessionStore.items == old(sessionStore.items)
    {
      session := current;
      user := if current.Some? then current.value.user else None;
      if current.Some? && current.value.user.Some? {
        var userRole := FetchUserRole(env);
        role := userRole;
        if userRole.Some? {
          local.SetItem(ROLE_STORAGE_KEY, userRole.value);
        }
      } else {
        local.RemoveItem(ROLE_STORAGE_KEY);
        role := None;
      }
      loading := false;
    }

    /** `signOut`. `providerThrows` says whether the provider's global
        sign-out threw; `atCall` is the state at the moment it is called. */
    method SignOut(providerThrows: bool) returns (ghost atCall: SignOutSnapshot)
      requires Valid()
      modifies this, local, sessionStore
      ensures Valid() && loading == old(loading)
      ensures user.None? && session.None? && role.None?
      // in-memory state and storage are cleared before the provider is called
      ensures atCall.user.None? && atCall.session.None? && atCall.role.None?
      ensures hasWindow ==>
        atCall.local == PurgedLocal(old(local.items)) &&
        atCall.sessionItems == Without(old(sessionStore.items), IsAuthArtifactKey)
      ensures !hasWindow ==>
        local.items == old(local.items) && sessionStore.items == old(sessionStore.items)
      ensures hasWindow && !providerThrows ==>
        local.items == atCall.local && sessionStore.items == atCall.sessionItems
      ensures hasWindow && providerThrows ==>
        local.items == map[] && sessionStore.items == map[]
    {
      user := None;
      session := None;
      role := None;
      if hasWindow {
        local.RemoveItem(ROLE_STORAGE_KEY);
        PurgeAuthArtifacts(local);
        PurgeAuthArtifacts(sessionStore);
      }
      atCall := SignOutSnapshot(user, session, role, local.items, sessionStore.items);
      if providerThrows && hasWindow {
        local.Clear();
        sessionStore.Clear();
      }
    }
  }

  /** Reloading after a sign-out that completed finds no cached role. */
  method ReloadAfterSignOut(p: AuthProvider) returns (reloaded: AuthProvider)
    requires p.Valid() && p.hasWindow
    modifies p, p.local, p.sessionStore
    ensures reloaded.role.None?
  {
    var _ := p.SignOut(false);
    reloaded := new AuthProvider(true, p.local, p.sessionStore);
  }

  /** `useAuth`: the provider's value, or the error thrown outside one. */
  function UseAuth(context: Option<AuthProvider>): (r: Call<AuthProvider>)
    ensures context.None? ==> r == Threw(Error(NO_PROVIDER))
    ensures context.Some? ==> r == Returned(context.value)
  {
    match context
    case None => Threw(Error(NO_PROVIDER))
    case Some(p) => Returned(p)
  }
}
