# gohf — a Dafny model of the foundation site's auth, role and form logic

This is a Dafny model of the logic core of the Guardians of Hope Foundation web site, a Next.js application. It covers:

- the client-side authentication provider: session and role state; the role cached in `localStorage` under `gohf-user-role`; sign-in and sign-up; and the sign-out purge of identity-provider artifacts from both web stores;
- the server route `GET /api/users/role`, which reads a bearer token from the request, has the identity provider verify it, and looks the caller's role up in the `users` table;
- the sign-in / sign-up page and its password checks;
- the theme provider and the pre-hydration theme script of the root layout;
- the admin dashboard's tab, fetch and display logic;
- the join and contact forms, and the `POST`/`GET` handlers of `/api/members`, `/api/donations` and `/api/events`;
- the members page's founding-member filter and accordion;
- platform detection for the native mobile container.

Everything outside the site is a parameter of the model: the identity provider, the database, `fetch`, the web stores' initial contents and the media query. Where the site feeds a value into such an outside call (a token, a header, a user id, a row), the parameter is a function of that value. When an outside call can fail, its outcome has type `Call<T>`, which is either `Returned(value)` or `Threw(error)`. JavaScript values that travel through JSON are the datatype `Json.Json`. JavaScript truthiness, `a || b`, property access and optional chaining are written out in the `Json` module.

Each asynchronous handler is one atomic method. Where a state the user can see before the handler's request, such as the loading flag or the cleared messages, matters, the method returns it as a ghost snapshot (`atStart`, `atRequest`, `atCall`).

Two results tie the client and the server together:

- `AuthContext.FetchedRoleIsStored` and `AuthContext.StoredRoleIsFetched` compose the client's `fetchUserRole` with the role route. For a session whose access token is non-empty and contains no space, a role the client accepts is exactly a non-empty role string that the `users` table holds for the user the token verifies as. (An empty token makes the client skip the request, and a token with a space in it would be cut at the space by the route's `split(' ')[1]`.)
- `RoleRoute.RoleFailsClosed` shows that a 200 reply from the role route carries either `{ role: null }` or a truthy role that the table holds for the verified caller. A missing header or a failed verification answers 401, and a thrown call answers 500.

Two behaviours of the code worth knowing:

- **Stale cached role.** After a session with a user whose role fetch yields null, the cached role is not removed. Only "no session user" removes it (`src/lib/auth-context.tsx:66-79`, `95-106`). `AuthContext.CacheDisagreesOnlyWhenStale` characterises exactly when the cache and the resolved role then disagree.
- **Pre-hydration script.** The layout's script treats any non-empty stored string other than `dark` and `system` as light. The provider ignores a value outside `light`, `dark` and `system` and follows the system ("system" is its default state). `Layout.ScriptAgreesWithProvider` states exactly when the two agree. `setTheme` only ever stores one of the three whitelisted names (`Theme.StoredThemeReadsBack`), so the difference shows only for values written by something else.

## Model

| member | source | states |
|---|---|---|
| Strings.StartsWith | src/app/api/users/role/route.ts:9 | definition of `startsWith`: the prefix is the first characters of the string |
| Strings.Contains | src/lib/auth-context.tsx:176 | definition of `includes` by recursion on the string; `Strings.ContainsIffOccurs` ties it to an occurrence at some index |
| Strings.Split | src/app/api/users/role/route.ts:16 | `split(sep)` for a one-character separator returns at least one piece; its meaning is stated by `Strings.SplitJoin` and `Strings.FirstPiece` |
| Strings.SplitJoin | src/app/api/users/role/route.ts:16 | joining the pieces of `split(sep)` gives the string back, and no piece contains the separator |
| Strings.SplitAtFirstSep | src/app/api/users/role/route.ts:16 | splitting `w + sep + t`, with `w` free of the separator, gives `w` followed by the pieces of `t` |
| Strings.FirstPiece | src/app/api/users/role/route.ts:16 | the first piece of a split is a prefix with no separator that ends at the end of the string or just before a separator |
| Strings.ContainsIffOccurs | src/lib/auth-context.tsx:176 | `includes` holds exactly when the substring occurs at some position |
| Json.Truthy | src/app/api/members/route.ts:14-16 | exactly undefined, null, `false`, `0` and `""` are falsy; every array and object is truthy |
| Json.Or | src/app/api/members/route.ts:14-16 | `a \|\| b` is `a` when `a` is truthy and `b` otherwise |
| Json.OrNull | src/app/api/users/role/route.ts:76 | `v \|\| null` keeps a truthy value, turns a falsy one into null, and preserves truthiness |
| Json.Get | src/app/api/members/route.ts:11-13 | reading a property throws exactly on null or undefined; a missing key reads as undefined |
| Json.OptGet | src/lib/auth-context.tsx:53 | optional chaining never throws; on a null or undefined base it gives undefined, otherwise it agrees with plain property access |
| Http.IsOk | src/lib/auth-context.tsx:47 | definition of `response.ok`: a status from 200 to 299, as also read at join/page.tsx:85 and contact/page.tsx:37 |
| Http.ErrorResponse | src/app/api/members/route.ts:23-26 | the reply has the given status and a body whose only key is `error`, which the client reads back as the message |
| Http.CreateResponse | src/app/api/members/route.ts:21-39 | a `POST` replies 201 `{ success: true, data }` exactly when the insert returned rows, 400 with the database message exactly when it returned an error, and 500 `Internal server error` exactly when something threw |
| Http.ListResponse | src/app/api/members/route.ts:42-64 | a `GET` (members; donations and events have the same shape) replies 200 `{ data }` exactly on a successful query, 400 with the message exactly on a query error, and 500 otherwise |
| WebStorage.Without | src/lib/auth-context.tsx:175-186 | the table without the matching keys: a key remains exactly when it was present and does not match, and its value is unchanged |
| WebStorage.WithoutIdempotent | src/lib/auth-context.tsx:175-186 | removing the matching keys a second time changes nothing |
| WebStorage.Storage.constructor | src/lib/auth-context.tsx:27 | a web store is given as the page finds it: it holds exactly the table it is built with |
| WebStorage.Storage.GetItem | src/lib/auth-context.tsx:27 | `getItem` is the stored value, or null exactly when the key is absent |
| WebStorage.Storage.SetItem | src/lib/auth-context.tsx:73 | `setItem` maps the key to the value and changes nothing else |
| WebStorage.Storage.RemoveItem | src/lib/auth-context.tsx:77 | `removeItem` removes only that key |
| WebStorage.Storage.Clear | src/lib/auth-context.tsx:196-197 | `clear` empties the store |
| RoleRoute.BearerToken | src/app/api/users/role/route.ts:16 | the token is the text after `Bearer ` up to the next space or the end of the header, and contains no space |
| RoleRoute.BearerTokenOfHeader | src/app/api/users/role/route.ts:16 | a space-free token sent as `Bearer ${token}` is read back unchanged |
| RoleRoute.RoleClient | src/app/api/users/role/route.ts:21-65 | definition: the lookup goes through the service-role client when a non-empty service key is configured, and through the caller's own client otherwise |
| RoleRoute.RoleBody | src/app/api/users/role/route.ts:52 | definition of the `{ role: v }` body, also built at lines 55, 73 and 76 |
| RoleRoute.RoleForToken | src/app/api/users/role/route.ts:31-83 | a thrown verification gives 500; a failed verification or no user gives 401 `Invalid or expired token`; for a verified user, a thrown lookup gives 500, a lookup error or a falsy stored role gives 200 `{ role: null }`, and a truthy stored role gives 200 `{ role }` |
| RoleRoute.GetRole | src/app/api/users/role/route.ts:5-84 | the status is 200, 401 or 500; the reply is the 401 `Missing or invalid authorization header` exactly when the header is missing or does not start with `Bearer `; otherwise it is the token's answer through the client the service key selects |
| RoleRoute.RoleFailsClosed | src/app/api/users/role/route.ts:42-76 | a 200 reply means the header was valid and the body is `{ role: v }`, where `v` is null or a truthy role that the table holds for the verified user |
| RoleRoute.StoredRoleIsReturned | src/app/api/users/role/route.ts:65-76 | a verified caller whose row holds a truthy role gets exactly `{ role }` with status 200 |
| AuthContext.IsAuthArtifactKey | src/lib/auth-context.tsx:176 | definition of the sign-out filter (also at line 183): a key starting with `sb-` or containing `supabase` or `auth` |
| AuthContext.RoleText | src/lib/auth-context.tsx:53 | the role read from a reply body is present exactly when it is a non-empty string |
| AuthContext.FetchUserRole | src/lib/auth-context.tsx:34-58 | a thrown `getSession`, no session or an empty token gives null; a non-null role implies the session had a token, the role request with `Bearer <token>` returned an ok status, and its body's `role` is that non-empty string; conversely, an ok reply whose `role` is a non-empty string gives that string |
| AuthContext.FetchFailsToNull | src/lib/auth-context.tsx:47-57 | a reply that threw, a non-2xx status, or a reply whose `role` is not a non-empty string all give null |
| AuthContext.FetchedRoleIsStored | src/lib/auth-context.tsx:34-58 | end to end with the role route: a role the client accepts is stored in `users` for the user the session's token verifies as |
| AuthContext.StoredRoleIsFetched | src/lib/auth-context.tsx:34-58 | end to end: a non-empty role string stored for the verified user is the role the client fetches |
| AuthContext.SignIn | src/lib/auth-context.tsx:117-127 | the provider's error is returned as it is, and a thrown error becomes the returned error |
| AuthContext.SignUp | src/lib/auth-context.tsx:129-160 | a provider error is returned and nothing is inserted; exactly when the provider returned a user without error, a profile row `(id, email, 'member')` is inserted; an insert that returns an error is only logged; a throw becomes the returned error |
| AuthContext.CacheAfterResolution | src/lib/auth-context.tsx:66-79 | without a session user the role key is removed; with one, a fetched role is written, and a null fetch leaves the whole table, stale role included, as it was; no other key changes |
| AuthContext.CacheDisagreesOnlyWhenStale | src/lib/auth-context.tsx:95-106 | the cache differs from the resolved role exactly when a session user's fetch gave null while a role was already cached |
| AuthContext.PurgedLocal | src/lib/auth-context.tsx:170-186 | after the purge, neither the role key nor any artifact key (`sb-…`, containing `supabase` or `auth`) remains; every other key keeps its value, and no key is added |
| AuthContext.PurgeIdempotent | src/lib/auth-context.tsx:170-186 | purging twice leaves the same storage as purging once |
| AuthContext.PurgeAuthArtifacts | src/lib/auth-context.tsx:175-186 | the key-by-key removal loop leaves exactly the store without its artifact keys |
| AuthContext.AuthProvider.constructor | src/lib/auth-context.tsx:22-31 | the initial role is the cached role when a window exists and null otherwise; there is no user and no session, and it is loading |
| AuthContext.AuthProvider.Initialize | src/lib/auth-context.tsx:62-85 | a thrown `getSession` only clears loading; otherwise session, user, role and cache follow the resolution rule, and loading ends |
| AuthContext.AuthProvider.OnAuthStateChange | src/lib/auth-context.tsx:90-110 | the session and user are the event's; role and cache follow the resolution rule; loading ends |
| AuthContext.AuthProvider.SignOut | src/lib/auth-context.tsx:162-200 | the in-memory state is cleared, and both stores are purged before the provider is called; a provider call that throws empties both stores, while an `{ error }` it returns is ignored like a success; without a window no store is touched |
| AuthContext.ReloadAfterSignOut | src/lib/auth-context.tsx:25-30 | a provider started after a completed sign-out has no cached role |
| AuthContext.UseAuth | src/lib/auth-context.tsx:209-215 | outside a provider it throws `useAuth must be used within an AuthProvider`; inside one it returns the provider |
| Login.ValidateSignUp | src/app/login/page.tsx:27-38 | a mismatch is reported exactly when the passwords differ; too short exactly when they match and are under 6 characters; it passes exactly otherwise |
| Login.LoginPage.constructor | src/app/login/page.tsx:9-15 | the page starts in sign-in mode with empty fields, no messages and not loading |
| Login.LoginPage.EditEmail | src/app/login/page.tsx:101 | the email field takes the input's value |
| Login.LoginPage.EditPassword | src/app/login/page.tsx:118 | the password field takes the input's value |
| Login.LoginPage.EditConfirmPassword | src/app/login/page.tsx:136 | the confirmation field takes the input's value |
| Login.LoginPage.HandleSubmit | src/app/login/page.tsx:19-64 | messages are cleared and loading is set first; in sign-up mode a failed check makes no request; a sign-up error is shown; a sign-up success shows the confirmation message and clears the three fields; a sign-in error is shown; a sign-in success redirects to `/` |
| Login.LoginPage.ToggleMode | src/app/login/page.tsx:66-72 | the mode flips; messages and both password fields are cleared; the email is kept |
| Theme.ThemeName | src/lib/theme-context.tsx:53 | definition: the string each theme is stored as (`light`, `dark`, `system`) |
| Theme.ResolvedName | src/lib/theme-context.tsx:42 | definition: the `data-theme` value, `light` or `dark`, of a resolved theme |
| Theme.ParseStored | src/lib/theme-context.tsx:23-26 | a stored value is adopted exactly when it is `light`, `dark` or `system` |
| Theme.StoredThemeReadsBack | src/lib/theme-context.tsx:51-54 | the name `setTheme` stores is read back as the same theme |
| Theme.Resolve | src/lib/theme-context.tsx:34-43 | the result is dark exactly when the theme is dark, or the theme is system and the OS prefers dark, and light otherwise; a theme other than `system` resolves to itself |
| Theme.UseTheme | src/lib/theme-context.tsx:68-79 | without a provider: `system`, `light` and a no-op setter; with one: its value |
| Theme.ThemeProvider.constructor | src/lib/theme-context.tsx:16-18 | it starts as system, resolved light and not mounted |
| Theme.ThemeProvider.Context | src/lib/theme-context.tsx:56-65 | before mounting, consumers see the defaults; after mounting, they see the provider's theme |
| Theme.ThemeProvider.Mount | src/lib/theme-context.tsx:20-27 | on mount, a whitelisted stored theme is adopted and any other stored value is ignored |
| Theme.ThemeProvider.UpdateResolvedTheme | src/lib/theme-context.tsx:29-49 | once mounted, the resolved theme and the `data-theme` attribute both become the resolution of the theme |
| Theme.ThemeProvider.SetTheme | src/lib/theme-context.tsx:51-54 | sets the theme and stores exactly its name under `theme` |
| Theme.SetThenRemount | src/lib/theme-context.tsx:20-27 | a theme set in one page load is the theme of the next one |
| Layout.PreHydrationTheme | src/app/layout.tsx:23-30 | a throw sets nothing; stored `dark` gives dark; no value, an empty value or `system` follows the OS; any other string gives light |
| Layout.ProviderTheme | src/lib/theme-context.tsx:23-43 | definition: the theme the provider resolves after mounting over the same storage, a whitelisted stored theme or else `system` |
| Layout.ScriptAgreesWithProvider | src/app/layout.tsx:27 | the script and the provider agree exactly when the stored value is absent or one of `""`, `light`, `dark`, `system`, or the OS does not prefer dark |
| Admin.Endpoint | src/app/admin/page.tsx:26-39 | definition of the tab-to-endpoint switch; `Admin.EndpointsDistinct` shows that no two tabs share an endpoint |
| Admin.TabOf | src/app/admin/page.tsx:26-39 | an endpoint maps back to the tab that reads it |
| Admin.EndpointsDistinct | src/app/admin/page.tsx:26-39 | every tab has its own endpoint |
| Admin.DefaultStatus | src/app/admin/page.tsx:179 | definition: the default status of each tab, `pending`, `pending`, `registered` and `unread`, shown at lines 179, 225, 271 and 315 |
| Admin.StatusLabel | src/app/admin/page.tsx:179 | a truthy status is shown as it is; a missing or falsy one shows the tab's default (`pending`, `pending`, `registered`, `unread`, at lines 179, 225, 271, 315); the label is never empty |
| Admin.FormatDate | src/app/admin/page.tsx:78-87 | a missing or empty date shows as `-`; any other date is formatted |
| Admin.ListOf | src/app/admin/page.tsx:51 | `data \|\| []` is the array's items, and empty for a falsy value |
| Admin.Route | src/app/admin/page.tsx:41-65 | a throw, or a body that is null or undefined, shows `Failed to load data`; a truthy `error` is shown; otherwise the data goes into the list |
| Admin.RouteOfListResponse | src/app/admin/page.tsx:44-62 | against the list routes: selected rows land in the list; a non-empty database error is shown; an empty one stores an empty list; a server failure shows `Internal server error` |
| Admin.Dashboard.constructor | src/app/admin/page.tsx:9-15 | it starts on the members tab, loading, with no error and empty lists |
| Admin.Dashboard.List | src/app/admin/page.tsx:10-13 | definition: the list a tab shows, one of the four row lists |
| Admin.Dashboard.Count | src/app/admin/page.tsx:71-76 | definition: a tab's count is the length of its list; `Admin.Dashboard.FetchData` states how a fetch changes it and `Admin.Dashboard.ShowsBadge` when it shows |
| Admin.Dashboard.ShowsBadge | src/app/admin/page.tsx:115 | the badge is shown exactly for a non-empty list |
| Admin.Dashboard.SelectTab | src/app/admin/page.tsx:107 | the active tab becomes the chosen one |
| Admin.Dashboard.FetchData | src/app/admin/page.tsx:21-69 | it requests the active tab's endpoint, with loading set and the error cleared; then either only the error changes, or only the active tab's list does, and the tab bar then counts the stored rows on the active tab and the same as before on the others; loading ends |
| Forms.Blank | src/app/join/page.tsx:87-94 | a blank form has exactly the given fields, all empty |
| Forms.RequestBody | src/app/join/page.tsx:82 | `JSON.stringify(formData)` is an object with the form's fields as strings |
| Join.JoinPage.constructor | src/app/join/page.tsx:53-62 | the six fields start empty, not submitting, idle |
| Join.JoinPage.HandleChange | src/app/join/page.tsx:64-69 | only the field named by the input's id changes |
| Join.JoinPage.HandleSubmit | src/app/join/page.tsx:71-104 | posts the form as it was; submitting and idle while the request is in flight; an ok reply gives success and clears the form; a failed or thrown reply gives an error and keeps the form |
| Join.JoinFormRoundTrip | src/app/api/members/route.ts:10-18 | the `members` row built from a submitted join form reads back each field, and its status is `pending` |
| Contact.ContactPage.constructor | src/app/contact/page.tsx:7-14 | the four fields start empty, not submitting, idle |
| Contact.ContactPage.HandleChange | src/app/contact/page.tsx:16-21 | only the field named by the input's id changes |
| Contact.ContactPage.HandleSubmit | src/app/contact/page.tsx:23-54 | posts the form as it was; an ok reply gives success and clears the form; otherwise an error, and the form is kept |
| MembersRoute.MemberRow | src/app/api/members/route.ts:10-18 | no row exactly for a null or undefined body; the row has exactly the seven columns; names and email are copied; phone, interest and message are copied when truthy and null otherwise; status is `pending` |
| MembersRoute.MemberRowIgnoresOtherFields | src/app/api/members/route.ts:10-18 | only the six named body fields reach the table |
| MembersRoute.Post | src/app/api/members/route.ts:4-40 | a body that is unreadable or null gives 500; otherwise the reply is the insert's reply for the body's row |
| DonationsRoute.DonationRow | src/app/api/donations/route.ts:10-19 | name, email and amount are copied; the currency is copied when truthy and otherwise `INR`; method, transaction id and notes are copied when truthy and null otherwise; status is `completed` |
| DonationsRoute.DonationRowIgnoresOtherFields | src/app/api/donations/route.ts:10-19 | only the seven named body fields reach the table, so a client cannot choose the status |
| DonationsRoute.Post | src/app/api/donations/route.ts:4-41 | a body that is unreadable or null gives 500; otherwise the reply is the insert's reply for the body's row |
| EventsRoute.RegistrationRow | src/app/api/events/route.ts:10-18 | event and participant names and email are copied; phone and notes are copied when truthy and null otherwise; the guest count is copied when truthy and otherwise 0; status is `registered` |
| EventsRoute.GuestCountDefault | src/app/api/events/route.ts:15 | an absent, null or zero guest count is stored as 0, and a positive count as it is |
| EventsRoute.RegistrationRowIgnoresOtherFields | src/app/api/events/route.ts:10-18 | only the six named body fields reach the table |
| EventsRoute.Post | src/app/api/events/route.ts:4-40 | a body that is unreadable or null gives 500; otherwise the reply is the insert's reply for the body's row |
| MembersPage.FoundingMembers | src/app/members/page.tsx:143 | the filter keeps exactly the founding members |
| MembersPage.FoundingMembersKeepsCount | src/app/members/page.tsx:143 | each founding member is kept as many times as it occurs, and every other member is dropped |
| MembersPage.FoundingMembersInOrder | src/app/members/page.tsx:143 | the filter keeps the original order |
| MembersPage.AllMembersShown | src/app/members/page.tsx:21-68 | all four listed members are founding members, so all are shown |
| MembersPage.Toggled | src/app/members/page.tsx:145-147 | the toggled card becomes the expanded one unless it already was, in which case none is |
| MembersPage.ToggleTwice | src/app/members/page.tsx:145-147 | toggling one card twice leaves it expanded only if it started expanded, and otherwise collapses all cards |
| MembersPage.MembersView.constructor | src/app/members/page.tsx:141 | no card starts expanded |
| MembersPage.MembersView.IsExpanded | src/app/members/page.tsx:180 | definition of `expandedId === member.id`: a card is expanded exactly when its id is the expanded one |
| MembersPage.MembersView.ExpandedCards | src/app/members/page.tsx:176-183 | every card shown expanded (`expandedId === member.id`) has its id in the set, every id in the set is the expanded one, and at most one card is expanded at a time |
| MembersPage.MembersView.ToggleMember | src/app/members/page.tsx:145-147 | the expanded id becomes the toggle of the old one |
| Platform.NativeFlag | src/lib/platform.ts:14 | definition: `Capacitor?.isNativePlatform?.()` exists and returns true |
| Platform.PlatformName | src/lib/platform.ts:29 | definition: the value of `Capacitor?.getPlatform?.()`, absent when the object or the method is missing |
| Platform.IsMobileApp | src/lib/platform.ts:9-21 | false without a window; true when the native flag is set; otherwise true exactly for the `capacitor:` and `file:` protocols |
| Platform.IsIOS | src/lib/platform.ts:26-30 | false without a window; otherwise true exactly when a Capacitor object whose `getPlatform` method exists answers `ios` |
| Platform.IsAndroid | src/lib/platform.ts:35-39 | false without a window; otherwise true exactly when a Capacitor object whose `getPlatform` method exists answers `android` |
| Platform.IsWeb | src/lib/platform.ts:44-46 | true during server rendering; false when the native flag is set; otherwise true exactly when the protocol is neither `capacitor:` nor `file:` |
| Platform.ServerRenderIsWeb | src/lib/platform.ts:10 | during server rendering nothing is native, and the page is web |
| Platform.NotBothPlatforms | src/lib/platform.ts:26-39 | no environment is both iOS and Android |

## Left out

- Rendering: the JSX markup, styling, icons, navigation components and the static pages (home, about, founders, events) carry no logic that the model captures.
- Outside systems: the identity provider, the database client (`src/lib/supabase.ts`), `fetch` and the browser APIs are parameters. Their own behaviour is not modelled, and neither are the environment variables read to create clients or a `createClient` that fails.
- Row ordering: the `.order('created_at', { ascending: false })` of the list routes is the database's job, and the rows are passed through as given.
- The stats route `src/app/api/stats/route.ts` and the `/api/contact` route are not part of this model. The contact page is modelled up to the reply it receives.
- Concurrency: the async handlers run atomically. An auth-state event arriving during `initializeAuth`, or a tab change during `fetchData`, is not interleaved. The states before a request are exposed as ghost snapshots.
- Locale formatting: `toLocaleDateString('en-IN', …)` is a parameter of `Admin.FormatDate`.
- Numbers: JSON numbers are reals, and NaN and the infinities are not modelled.
- Password length: Dafny characters stand in for UTF-16 code units of `password.length`.
- Navigation side effects: `router.refresh()` after sign-in, the subscription's `unsubscribe`, the media-query listener removal and `console.error` logging are left out. `router.push('/')` is recorded as the page's `redirect`.
- Failure causes: a `Call` that threw covers every way the source's `try` block can fail, whether a network error, an unparsable JSON body or a provider exception, without telling them apart.
- The members page: the descriptive card fields (bio, initials, year, contributions, colour, image) are left out because no logic reads them.
- AuthContext.RoleText: a truthy role that is not a string (a number, say) passes `data?.role || null` in the source but is read as null here, because the role state is typed as a string.
- AuthContext.FetchUserRole: weaker than the source for the same non-string roles, for the same reason as `RoleText`.
- Admin.ListOf: a truthy `data` that is not an array is stored as an empty list, because the list routes only ever send an array or null.
