# Barber Community web client: session manager and page state

This project models the parts of the Barber Community browser client that
carry state or rules, leaving out the JSX views. Barbers and clients use the
client, and it talks to a REST API.

- **The session manager** (`AuthProvider`, module `AuthContext`). It is a class
  `Session` with five fields:
  - the signed-in `user`;
  - the bearer `token`;
  - the boot-time `loading` flag;
  - `storage`, the localStorage entry `'token'`;
  - `header`, the shared HTTP client's default `Authorization` header.

  Each handler is a method: `SyncHeader` (the token effect), `VerifyToken`
  (the `/api/auth/me` effect), `Login`, `Register` and `Logout`. A request's
  outcome is a parameter of type `Http.Reply`. React runs both effects after
  any commit that changes the token's value. `TokenChanged`, `Start`,
  `LoginFlow` and `RegisterFlow` make that explicit, so a login or register
  with a new token is followed by a fresh `/api/auth/me` check. The settled
  outcome of either is the pure function `AfterSignIn` over a snapshot
  `SessionState` of the five fields. The capability flags `IsAuthenticated`,
  `IsBarber` and `IsClient` are predicates on the user. Their roles are the
  strings `"BARBERO"` and `"CLIENTE"`. `Session.Valid` is kept by every
  operation: a user always comes with a token, and storage always mirrors the
  token.
- **The registration page** (module `Register`). It has the form, `handleChange`,
  the guard chain of `handleSubmit` and the profile it sends. The handler
  awaits `register`, so it is split at the await. `BeginSubmit` validates and
  raises `loading`. `FinishSubmit` lowers `loading` and navigates to "/" on
  success. `HandleSubmit` joins them around `RegisterFlow`.
- **The contact form** (module `ContactModal`). It has the required-field
  check, the POST body (an empty phone becomes `null`), the error text and a
  count of `onSuccess` calls.
- **The directory page** (module `Explore`). It has offset paging of barbers,
  the city search, the `[selectedCity]` effect, `clearFilters` and the display
  rules: the first eight city pills and the plural caption. Every operation
  keeps `offset == |barbers|`, with one exception: a `clearFilters` whose
  refetch fails leaves `offset` at 0 beside the list that was shown.
  `ClearFilters` states this case outright.
- **The feed page** (module `Home`). It has offset paging of posts and the
  relative age beside each post. The age is computed over integer
  millisecond timestamps. `AgeOf` characterises each bucket directly by the
  elapsed time. `DescribeInjective` shows that the Spanish phrases never
  collide.
- **Shared modules.** `Text` models JavaScript's `trim()` (ECMAScript
  whitespace and line terminators), the UTF-16 `length` that the password
  rule counts, and the decimal rendering of a count. `Http` holds the reply
  types and the `message || fallback` error text.

Four behaviours of the session manager's code matter here:
- Verification re-runs on every token change, including right after a login.
- A verification reply is applied with no check that it still matches the
  current token.
- A success body of login or register is used without checking that it has
  both `user` and `token`.
- The commit order is user, then token, then storage.

## Model

| member | source | states |
|---|---|---|
| `Http.ErrorText` | src/contexts/AuthContext.js:59 | the server's message is shown when present and non-empty, the fallback otherwise; with a non-empty fallback the text is never empty |
| `AuthContext.BearerHeader` | src/contexts/AuthContext.js:21-27 | a header exists exactly when the token is truthy (present and non-empty), and then it is `"Bearer "` followed by the token |
| `AuthContext.IsAuthenticated` | src/contexts/AuthContext.js:97 | `isAuthenticated` holds exactly when there is a user |
| `AuthContext.IsBarber` | src/contexts/AuthContext.js:98 | `isBarber` implies `isAuthenticated` |
| `AuthContext.IsClient` | src/contexts/AuthContext.js:99 | `isClient` implies `isAuthenticated` and excludes `isBarber` |
| `AuthContext.RoleFlagsConsistent` | src/contexts/AuthContext.js:97-99 | `isBarber` and `isClient` never both hold; either implies `isAuthenticated`; with no user all are false; role "BARBERO" gives only `isBarber`, "CLIENTE" only `isClient` |
| `AuthContext.Session.constructor` | src/contexts/AuthContext.js:16-18 | first render: no user, `loading` true, the token and storage both equal the stored value, no header; the invariant holds |
| `AuthContext.Session.SyncHeader` | src/contexts/AuthContext.js:21-27 | afterwards the header is `Bearer <token>` for a truthy token and absent otherwise; nothing else changes |
| `AuthContext.Session.VerifyToken` | src/contexts/AuthContext.js:30-45 | a request is made exactly when the token is truthy; without one only `loading` changes; a reply sets the user and keeps token, storage and header; a failure logs out completely; `loading` always ends false; the invariant is kept |
| `AuthContext.Session.Authenticate` | src/contexts/AuthContext.js:47-81 | the shared body of login and register: success sets the user, and both the token and storage to the returned token, and returns success; failure changes nothing and returns the server's message or the given fallback; the invariant is kept |
| `AuthContext.Session.Login` | src/contexts/AuthContext.js:47-63 | success sets the user, and both the token and storage to the returned token, and returns success; failure changes nothing and returns the server's message or "Error al iniciar sesión" |
| `AuthContext.Session.Register` | src/contexts/AuthContext.js:65-81 | the same contract as login, with the fallback "Error al registrarse" |
| `AuthContext.Session.Logout` | src/contexts/AuthContext.js:83-89 | from any state: no user, no token, nothing stored, no header; `loading` untouched; the invariant and header agreement hold |
| `AuthContext.Session.TokenChanged` | src/contexts/AuthContext.js:20-45 | the two effects in declaration order: the header agrees with the token, then verification as above, `loading` false; the new state is `Settled` of the old one |
| `AuthContext.Start` | src/contexts/AuthContext.js:15-45 | boot: with no truthy stored token there is no request and the state is anonymous with `loading` false; an accepted token gives the returned user and header `Bearer <token>`; a rejected one leaves no user, no token, no storage and no header |
| `AuthContext.Settled` | src/contexts/AuthContext.js:20-45 | the state both `[token]` effects leave: the header agrees with the token and `loading` is false; with no truthy token user, token and storage stay; a truthy token takes the `/me` user and keeps token and storage, or on failure leaves no user, token or storage |
| `AuthContext.AfterSignIn` | src/contexts/AuthContext.js:20-81 | the settled state after a sign-in: a failure changes nothing; a success with the same token only sets the user, with storage, header and `loading` kept; a new non-empty token is re-verified, so the `/me` reply gives the user, token, storage and header `Bearer <token>` with `loading` false, or a failed `/me` signs out completely; a new empty token keeps the signed-in user with no header |
| `AuthContext.LoginFlow` | src/contexts/AuthContext.js:20-63 | the result is success or the server's message or "Error al iniciar sesión"; the final session is `AfterSignIn` of the old one; the invariant holds after any success and is kept after a failure |
| `AuthContext.RegisterFlow` | src/contexts/AuthContext.js:20-81 | the same as `LoginFlow` through `register`, with the fallback "Error al registrarse" |
| `AuthContext.LogoutTwice` | src/contexts/AuthContext.js:83-89 | logging out twice leaves the same state as logging out once |
| `Text.Trim` | src/pages/Register.js:34 | trimming never lengthens a string |
| `Text.TrimStart` | src/pages/Register.js:34 | the result is a suffix of the input; everything dropped is whitespace; the result does not start with whitespace |
| `Text.TrimEnd` | src/pages/Register.js:34 | the result is a prefix of the input; everything dropped is whitespace; the result does not end with whitespace |
| `Text.TrimEmptyIffBlank` | src/pages/Register.js:34 | `s.trim()` is empty (falsy) exactly when `s` consists only of whitespace |
| `Text.TrimmedEnds` | src/pages/Explore.js:75-76 | a trimmed non-empty string neither starts nor ends with whitespace; a string that already does not is its own trim |
| `Text.TrimIdempotent` | src/pages/Explore.js:75-76 | a general property of `trim()`, which both lines apply to the same search text: trimming an already trimmed string changes nothing |
| `Text.Utf16Length` | src/pages/Register.js:43 | the length counted is between the number of characters and twice that, and equals it exactly when every character lies in the Basic Multilingual Plane |
| `Text.Decimal` | src/pages/Home.js:44 | a rendered count is a non-empty string of digits without a leading zero |
| `Text.ParseDecimalInverts` | src/pages/Home.js:44 | reading the rendered digits back gives the number |
| `Text.DecimalInjective` | src/pages/Home.js:44-47 | different counts render differently |
| `Register.InitialForm` | src/pages/Register.js:7-14 | the initial form has role "CLIENTE" and every other field empty |
| `Register.WithField` | src/pages/Register.js:22-28 | the named field takes the new value and every other field keeps its value |
| `Register.Alert` | src/pages/Register.js:38-46 | an alert is shown exactly for a mismatched or too-short password |
| `Register.Validate` | src/pages/Register.js:30-55 | an accepted submission sends exactly name, email, password, role and location; the confirmation is never sent |
| `Register.ValidateIgnoresBlank` | src/pages/Register.js:34-36 | the submission is dropped silently exactly when the name, email or password is blank |
| `Register.ValidateDecides` | src/pages/Register.js:38-46 | with the fields filled: refused for a mismatched confirmation; otherwise refused when the password has fewer than 6 UTF-16 code units; otherwise sent |
| `Register.RegisterPage.constructor` | src/pages/Register.js:7-17 | the initial form, `loading` false, no navigation |
| `Register.RegisterPage.HandleChange` | src/pages/Register.js:22-28 | only the named field of the form changes |
| `Register.RegisterPage.BeginSubmit` | src/pages/Register.js:30-48 | the verdict is the guard chain's; only an accepted submission raises `loading` |
| `Register.RegisterPage.FinishSubmit` | src/pages/Register.js:56-60 | `loading` ends false; navigation to "/" happens on success only |
| `Register.RegisterPage.HandleSubmit` | src/pages/Register.js:30-61 | the verdict is the guard chain's; the page and the session are untouched unless the guards accept; then `loading` ends false, navigation to "/" happens exactly on success, and the session ends as `AfterSignIn` says, re-verified with `/me` when the token changed |
| `ContactModal.InitialForm` | src/components/ContactModal.js:7-11 | every field starts empty |
| `ContactModal.WithField` | src/components/ContactModal.js:14-20 | the named field takes the new value and every other field keeps its value |
| `ContactModal.BuildRequest` | src/components/ContactModal.js:25-37 | no request when the message or the email is blank; otherwise `barberId` is the barber's id, message and email go out untrimmed, and the phone is `null` exactly when it is empty |
| `ContactModal.ContactDialog.constructor` | src/components/ContactModal.js:6-12 | the barber's id, an empty form, `loading` false, no success yet |
| `ContactModal.ContactDialog.HandleChange` | src/components/ContactModal.js:14-20 | only the named field of the form changes |
| `ContactModal.ContactDialog.BeginSubmit` | src/components/ContactModal.js:22-37 | a blank required field gives the warning and changes nothing; otherwise the request is built and `loading` raised |
| `ContactModal.ContactDialog.FinishSubmit` | src/components/ContactModal.js:38-47 | `onSuccess` runs once after a successful post and never after a failure; the failure text is the server's message or "Error al enviar el mensaje"; `loading` ends false |
| `Explore.CityPills` | src/pages/Explore.js:177 | the pills are the first cities of the list, at most eight, and all of them when there are fewer than eight |
| `Explore.PluralSuffix` | src/pages/Explore.js:211 | the suffix is "s" exactly when the count is not 1 |
| `Explore.Caption` | src/pages/Explore.js:211 | the caption starts with the count; one barber reads "1 barbero encontrado", any other count ends in "s" |
| `Explore.ShowLoadMore` | src/pages/Explore.js:246 | the "load more" button needs `hasMore` and a non-empty list, and a selected city hides it |
| `Explore.ExplorePage.LoadMoreShown` | src/pages/Explore.js:246 | the page shows "load more" only with `hasMore`, barbers listed and no city selected |
| `Explore.ExplorePage.constructor` | src/pages/Explore.js:8-14 | empty lists and city fields, `loading` and `hasMore` true, offset 0 |
| `Explore.ExplorePage.FetchBarbers` | src/pages/Explore.js:27-47 | a first page replaces the list and a further page is appended; `hasMore` comes from the reply; offset advances by the page length, so offset keeps tracking the list; with no city selected, "load more" shows after a success exactly when the server says more exist and the list is non-empty, and an empty first page hides it; a failure leaves list, offset and `hasMore`; `loading` ends false |
| `Explore.ExplorePage.FetchBarbersByCity` | src/pages/Explore.js:49-62 | the results replace the list, `hasMore` is false, offset equals the list length and load-more is hidden; a failure leaves list, offset and `hasMore` |
| `Explore.ExplorePage.FetchCities` | src/pages/Explore.js:64-71 | the city list is the reply's, or is kept on failure |
| `Explore.ExplorePage.SetSearchCity` | src/pages/Explore.js:164 | the search box holds the typed text |
| `Explore.ExplorePage.SelectCity` | src/pages/Explore.js:21-25 | the city is selected; the city fetch runs exactly when the value changed and is non-empty |
| `Explore.ExplorePage.HandleCitySearch` | src/pages/Explore.js:73-78 | a blank search box changes nothing; otherwise the trimmed text becomes the selected city, fetched exactly when it differs from the previous one; a fetch ends with `loading` false and a successful one lists the results with `hasMore` false; without a fetch, or when it fails, list, offset, `hasMore` (and, without a fetch, `loading`) stay |
| `Explore.ExplorePage.ClearFilters` | src/pages/Explore.js:80-85 | both city fields are emptied and a first page is fetched from offset 0; on success offset tracks the list and "load more" shows exactly when the server says more exist and the page is non-empty; on failure offset is 0 beside the old list |
| `Home.LikesShown` | src/pages/Home.js:104 | a missing like count is shown as 0 |
| `Home.AgeOf` | src/pages/Home.js:38-47 | under an hour, including future dates, gives "a few minutes"; 1 to 23 whole hours give that hour count; 1 to 6 whole days give that day count; a week or more gives the absolute date; each bucket is characterised by the elapsed milliseconds |
| `Home.DaysOfHours` | src/pages/Home.js:41-46 | whole days of whole hours equal whole days of the elapsed milliseconds |
| `Home.Describe` | src/pages/Home.js:43-53 | the locale date is used exactly for ages of a week or more |
| `Home.FormatDate` | src/pages/Home.js:38-54 | under an hour the text is "Hace unos minutos"; under a day "Hace <whole hours> horas"; under a week "Hace <whole days> días"; from a week on, the locale date of the creation time |
| `Home.PhraseMark` | src/pages/Home.js:43-47 | each relative phrase is told apart by its third character from the end |
| `Home.DescribeInjective` | src/pages/Home.js:43-47 | two relative phrases are equal only for the same bucket and count |
| `Home.ShowLoadMore` | src/pages/Home.js:165 | the "load more" button needs `hasMore`, and an empty feed never shows it |
| `Home.HomePage.LoadMoreShown` | src/pages/Home.js:165 | the page shows "load more" only with `hasMore` and posts listed |
| `Home.HomePage.constructor` | src/pages/Home.js:8-11 | an empty feed, `loading` and `hasMore` true, offset 0 |
| `Home.HomePage.FetchPosts` | src/pages/Home.js:17-36 | a first page replaces the posts and a further page is appended; `hasMore` comes from the reply; offset advances by the page length and keeps tracking the list; "load more" shows after a success exactly when the server says more exist and the feed is non-empty, and an empty first page hides it; a failure leaves posts, offset and `hasMore`; `loading` ends false and is never raised |

## Left out

- HTTP requests are not performed. Each request's outcome is a parameter. The request URLs and query strings are not modelled, except the paging offset, which the fetch methods return.
- Async interleaving is not modelled. Each awaited reply is applied as one step. So the model does not show a verification reply that arrives after a logout, nor Explore's load-more reading a stale `offset`.
- Toasts, `console.error` and `alert` are not modelled. They have no effect on state. Some of the texts they would show are modelled (`Register.Alert`, `ContactModal` notices, `ErrorText`); the success toasts of login, register and logout ("¡Inicio de sesión exitoso!", "¡Registro exitoso!", "Sesión cerrada") and the fetch-error toasts of Explore and Home ("Error al cargar los barberos", "Error al buscar barberos por ciudad", "Error al cargar las publicaciones") are not.
- localStorage is the `storage` field. The shared HTTP client's default header is the `header` field.
- `new Date(...)` string parsing, invalid dates and `toLocaleDateString('es-ES', …)` are not modelled. Times are integer milliseconds, and the absolute date is the opaque `LocaleDate(dateMs)`.
- `rating.toFixed(1)` is not modelled (floating point), and neither are the view's spinner and empty-list texts.
- The `useAuth` outside-provider error is not modelled (React wiring). Every member here is given its `Session` directly.
- Request bodies are not modelled: `Session.Login` takes the email and password and `Session.Register` the profile, but what the server does with them is the `response` parameter. The profile the page sends is the one `Register.Validate` builds.
- Strings holding a lone UTF-16 surrogate are not modelled: Dafny's `string` holds only Unicode scalar values, whereas JavaScript's `.length` counts a lone surrogate as one unit and `trim()` keeps it (`Text.Utf16Length`, `Text.Trim`).
- A successful listing reply always carries its list and `pagination.hasMore` here (`Http.Page`, and the list of a city search). The code reads them without a check; the partial update a malformed reply causes (list replaced, `offset` and `hasMore` kept, so `offset` no longer tracks the list) is not modelled.
- A success body of login or register always carries both `user` and `token` here. The code reads both without a check, and a missing field is not modelled.
- `src/components/Navbar.js`, `src/pages/BarberProfile.js` and `src/App.js` are not part of this model. They only read the session flags, fetch and display, or route.
