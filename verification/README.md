# Profile registration and session logic, modelled in Dafny

The application is a small user-profile site. People sign in through a mock
social login (Google, Apple, Naver, Kakao). They register a vehicle plate and
a phone number, and they set a status. The browser keeps the signed-in user
in a local session cache. A REST service stores one `User` row per email.

This project models the logic under that plumbing:

- **registration.js**: `formatPhoneNumber`, `validatePhone` and
  `validateVehicle`, plus the trimming and whitespace stripping the vehicle
  register button applies before validation. Module `Registration`.
- **server/index.js**: the `User` row and the login, get, vehicle PUT/DELETE,
  phone PUT/DELETE and status PUT handlers. Each handler is a pure transition
  `(table, request) -> (reply, table)` over `map<string, User>`. Module
  `ProfileStore`.
- **client/auth.js**: `updateUser` routing (which endpoint, which method)
  with its fallback merge, the mock `login`, and `checkAuth`. Modules
  `ClientAuth` and `SessionStore`.
- **auth.js** (the older root-level script): `updateUser` as a plain
  override-merge, the provider outcomes of `login`, and `checkAuth`. Modules
  `LegacyAuth` and `SessionStore`.
- Module `Api` joins the two sides. It holds the server's route table and the
  JSON of a row. It proves that after a routed update the browser's cache
  equals the server's row.

Shared vocabulary lives in `Wire`. JSON values are `Null | Str(s)`. An object
is `map<string, Value>`. A key missing from the map is `undefined`, which is
distinct from a key holding `null`. HTTP requests carry a method, a resource
and a body. `Wrappers` holds `Option`.

Parameters stand in for the outside world:
- the clock reading `now` (the login time);
- the server's answer to a `fetch` (`ClientAuth.Answer`);
- whether the Google token client exists (`hasGoogleClient`);
- the session store, as `Option<map>` (`SessionStore.Store`).

## Behaviour worth noting

- Vehicle plates: the pattern accepts exactly three leading digits, then
  one Hangul syllable, then four digits (`registration.js:12`). `12가1234`
  is rejected (`Registration.VehicleExamplesRejected`). The server stores
  any string it is given; `server/test-api.js` stores `12가1234`.
- Phone formatting puts its dashes after the third and the seventh digit.
  In the formatted text they sit at indices 3 and 8, so ten digits come
  out 3-4-3, which the validator refuses. `validatePhone(formatPhoneNumber(s))`
  therefore holds exactly when `s` has at least eleven digits starting with
  `010` (`Registration.FormatThenValidate`). The formatter never produces
  the three-digit middle group that the validator also allows.
- The formatter is idempotent on every input, whether or not it was
  formatted before (`Registration.FormatIdempotent`).
- Nothing on the server checks a vehicle or phone number's format. A
  malformed value can therefore be stored.
- Besides the 400 for a missing email, login answers 500 without writing
  when the `name` it would save is missing or null. The same holds on creation
  for `provider`. Both columns are declared NOT NULL (`server/index.js:29-36`).
- `User` declares `phoneNumber` twice (`server/index.js:43-48`). The second
  declaration replaces the first with the same definition, so the row has
  one phone column.

## Model

| member | source | states |
|---|---|---|
| Registration.Digits | registration.js:23 | Removing every non-digit leaves only ASCII digits. |
| Registration.Keep | registration.js:23 | A global character-class deletion yields only characters of the kept class and is never longer than its input. |
| Registration.KeepConcat | registration.js:23 | The deletion works character by character: deleting from a concatenation concatenates the deletions, so order is kept. |
| Registration.KeepAll | registration.js:23 | A string with nothing to delete is returned unchanged. |
| Registration.KeepNone | registration.js:41 | A string made only of deleted characters (a run of whitespace) vanishes entirely. |
| Registration.KeepIdempotent | registration.js:23 | Deleting a class twice is the same as deleting it once. |
| Registration.StripWhitespace | registration.js:41 | Removing every `\s` character leaves no ECMAScript whitespace or line terminator. |
| Registration.FormatPhoneNumber | registration.js:22-32 | The output holds only digits and `-`. With at most 3 digits it is exactly the digit string. With 4–7 digits it has length digits+1 and a single dash, at index 3. With more than 7 digits it has dashes exactly at indices 3 and 8, length min(digits, 11)+2 and at most 13. |
| Registration.FormatKeepsDigits | registration.js:23-29 | The digits of the formatted text are the input's digits in order, cut to the first 11. The cut can only bite when there are more than 7. |
| Registration.FormatIdempotent | registration.js:22-32 | Formatting the formatted text gives the same text, for every input. |
| Registration.ValidatePhoneExactly | registration.js:15 | `validatePhone` accepts exactly `010-` followed by 3 or 4 digits, `-` and 4 digits. It is an iff against an independent description of the pattern. |
| Registration.FormatThenValidate | registration.js:15-29 | Formatted text passes `validatePhone` iff the input has at least 11 digits and the first three are `010`. |
| Registration.TenDigitsRejected | registration.js:28 | Ten digits format to a 12-character 3-4-3 string, with dashes at 3 and 8, that the validator rejects. |
| Registration.ElevenDigitsAccepted | registration.js:28 | Eleven digits starting with `010` format to a string the validator accepts. |
| Registration.ValidateVehicleIgnoresWhitespace | registration.js:41-42 | `validateVehicle(s) == validateVehicle(s without whitespace)`. |
| Registration.ValidateVehicleInsertWhitespace | registration.js:41-42 | Inserting any run of whitespace anywhere in the input leaves the verdict unchanged. |
| Registration.ValidateVehicleExactly | registration.js:12 | After whitespace is stripped, `validateVehicle` accepts exactly 3 digits, one syllable in U+AC00–U+D7A3, then 4 digits (both directions). |
| Registration.VehicleExampleAccepted | registration.js:11-12 | `123가1234` is accepted. |
| Registration.VehicleExampleSpaced | registration.js:40-42 | `123 가1234` is accepted: the inner space is stripped first. |
| Registration.VehicleExamplesRejected | registration.js:12 | `12가1234`, `1234가1234` and `123A1234` are rejected. |
| Registration.Trim | registration.js:101 | `trim()` returns a contiguous piece of the input with no whitespace at either end. Everything removed before and after that piece is whitespace. |
| Registration.StripAfterTrim | registration.js:101 | Trimming before stripping all whitespace changes nothing: the strip absorbs the trim. |
| Registration.VehicleSubmission | registration.js:100-107 | The button submits a value iff `validateVehicle` accepts the raw input. What it submits is the input without any whitespace, and it matches the plate pattern exactly. |
| ProfileStore.Login | server/index.js:69-99 | A falsy email gives 400 and no write. With a truthy email the reply is 200 exactly when name is present and not null, and on creation provider too; otherwise it is 500 and nothing is written. A new email adds exactly one row: given name, provider and avatar, NULL vehicle, phone and message, `statusKey = "available"`, `loginTime = now`. A known email changes only name, avatar and loginTime. Other rows never change. The reply is the stored row, and the key invariant is preserved. |
| ProfileStore.GetUser | server/index.js:102-112 | Returns the row iff the email has one, else 404. The table never changes. |
| ProfileStore.WriteColumn | server/index.js:118-123 | With no row: 404 and no write. With a row: the column takes the value, every other column and every other row stay as they were, and the reply is the saved row. |
| ProfileStore.PutVehicle | server/index.js:115-127 | Stores `body.vehicleNumber` exactly as given, with no format check. Nothing else in the row or table changes. An unknown email gives 404 and no write. |
| ProfileStore.DeleteVehicle | server/index.js:130-141 | Sets `vehicleNumber` to null and touches nothing else. An unknown email gives 404 and no write. |
| ProfileStore.PutPhone | server/index.js:144-156 | Stores `body.phoneNumber` exactly as given. Nothing else changes. An unknown email gives 404 and no write. |
| ProfileStore.DeletePhone | server/index.js:159-170 | Sets `phoneNumber` to null and touches nothing else. An unknown email gives 404 and no write. |
| ProfileStore.PutStatus | server/index.js:173-187 | `statusKey` is written iff the request's key is a non-empty string. `statusMessage` is written iff the field is present, so `""` and null are stored. All other columns and rows are unchanged. An unknown email gives 404 and no write. |
| ProfileStore.PutVehicleThenGet | server/test-api.js:32-48 | A GET after a vehicle PUT returns the value that was put. |
| ProfileStore.PutPhoneThenGet | server/index.js:144-156 | A GET after a phone PUT returns the value that was put. |
| ProfileStore.DeleteIdempotent | server/index.js:130-170 | Deleting a vehicle or phone twice gives the same reply and table as deleting it once. |
| ProfileStore.LoginKeepsRegistration | server/index.js:86-92 | Logging in again keeps vehicle, phone, provider and both status fields, and refreshes loginTime. |
| ProfileStore.EmptyMessageClearsOnlyMessage | server/index.js:179-180 | `{statusMessage: ""}` stores the empty message and keeps the key. |
| ProfileStore.EmptyKeyKeepsKey | server/index.js:179 | `{statusKey: ""}` leaves the table exactly as it was. |
| SessionStore.Merge | client/auth.js:136 | Keys of the update take the new values. Every other cached key keeps its value. The key set is the union. |
| SessionStore.MergeIdempotent | auth.js:91 | Applying the same update twice equals applying it once. |
| SessionStore.MergeTwice | auth.js:91 | Two merges in a row equal one merge of the later-wins union of the updates. |
| SessionStore.CheckAuth | client/auth.js:233-241 | Returns null iff there is no session, and then redirects to `index.html`. Otherwise it returns the session and does not redirect. The same code is at auth.js:161-169. |
| ClientAuth.Route | client/auth.js:107-118 | A routed endpoint exists iff one of the four keys is present. Priority is vehicle, then phone, then status. The method is DELETE exactly when the routed vehicle or phone value is null. Status is always PUT. |
| ClientAuth.UpdateRequest | client/auth.js:107-124 | A request is sent iff the update is routed. Its method is the routed one (PUT, or DELETE for null), its path is the routed endpoint under the cached user's email, and its body is the whole update. |
| ClientAuth.UpdateUser | client/auth.js:102-144 | With no session: returns undefined, sends nothing, writes nothing. With an unrouted update: no request, and the cache becomes the merge. With a routed update: the request goes to the routed endpoint under the session's email. A not-ok answer throws `Update failed` and leaves the cache. An ok answer makes the fetched user the cache and the return value. |
| ClientAuth.RoutedUpdateNeverMerges | client/auth.js:120-139 | Once an update is routed, the cache afterwards is either the old one or the server's user, never a local merge. |
| ClientAuth.LookupMock | client/auth.js:182 | The property read finds an own mock user iff the provider is one of the four. It finds nothing iff the name is neither a mock provider nor an `Object.prototype` member. |
| ClientAuth.SendLogin | client/auth.js:188-203 | Posts the body to the login endpoint. A not-ok answer throws `API Login failed` without writing. An ok answer stores and returns the user. |
| ClientAuth.Login | client/auth.js:151-204 | A name the lookup misses throws `Login failed: Unknown provider` before any request and without writing. A mock provider posts its mock user, and an inherited name such as `toString` posts an empty body, both as a POST to the login endpoint. A not-ok answer throws `API Login failed` without writing. An ok answer stores the fetched user and resolves with it. |
| ClientAuth.LoginInheritedNameReachesApi | client/auth.js:182-185 | `login("toString")` gets past the unknown-provider check and posts an empty body. |
| ClientAuth.LoginOwnProviders | client/auth.js:182-185 | Corrected lookup: every name outside the mock table is refused before any request. A mock provider posts its mock user, and an ok answer stores and resolves with the fetched user. |
| ClientAuth.LoginOwnProvidersAgrees | client/auth.js:182-185 | The corrected and written logins agree on every name that is not an inherited member. |
| LegacyAuth.UpdateUser | auth.js:87-94 | With no session: returns undefined and writes nothing. Otherwise every key of the update takes the update's value, every other key keeps its value, and the result is stored and returned. |
| LegacyAuth.SpreadMock | auth.js:122 | The spread copy is the mock user for the three mock providers, and `{}` for every other name. |
| LegacyAuth.Login | auth.js:101-132 | `google` with no token client rejects with `Google SDK not loaded` and writes nothing. With a client it stays pending. Any other name resolves with the spread mock fields plus `loginTime = now`, and that object becomes the session. |
| LegacyAuth.UnknownProviderResolves | auth.js:122-129 | An unknown provider resolves with `{loginTime: now}` and stores it. The reject branch is unreachable. |
| LegacyAuth.LoginRejectingUnknown | auth.js:122-129 | Corrected login: an unknown provider rejects with `Login failed: Unknown provider` and writes nothing. A mock provider gets its mock user plus `loginTime`. `google` stays pending with a token client and rejects with `Google SDK not loaded` without one, writing nothing either way. |
| LegacyAuth.LoginRejectingUnknownAgrees | auth.js:101-132 | The corrected and written logins agree for `google` and for the mock providers. |
| Api.Serve | server/index.js:69-187 | Each routed method and path reaches its own handler: POST login, GET user, PUT and DELETE for vehicle and phone, PUT status. The rest match no route. Every user-scoped route on an unknown email gives 404 and no write. Every route preserves the key invariant. |
| Api.RowJson | server/index.js:108 | The reply JSON has one key per column, holding that column's value. |
| Api.Exchange | client/auth.js:120-133 | The client receives a fetched user exactly when the server matched the route and answered ok; the database ends as the server left it (unchanged when no route matched); the fetched object is the stored row of the requested email. |
| Api.CacheFollowsServer | client/auth.js:128-133 | After a routed update for a known user, the browser's cache is exactly the server's row as JSON. |
| Api.VehicleUpdateRoundTrip | client/auth.js:110-133 | A vehicle update ends with the cache holding the value sent. Null clears the cached value. |
| Api.PhoneUpdateRoundTrip | client/auth.js:113-133 | A phone update (with no vehicle field) ends with the cache holding the value sent. |
| Api.EmptyStatusMessageRoundTrip | server/index.js:179-180 | Sending `{statusMessage: ""}` from the browser leaves an empty message in the cache, alongside the status key the server already had. |

## Findings

| source | as written | input that shows it | evidently intended | confidence | as-written member | corrected member |
|---|---|---|---|---|---|---|
| client/auth.js:182-185 | `this.mockUsers[provider]` is an ordinary property read. Names inherited from `Object.prototype` find a truthy member, so `!mockUser` is false. | `login("toString")` (also `constructor`, `__proto__`, ...) posts to the login API instead of throwing `Login failed: Unknown provider` | Any provider outside the mock table is refused before any request | high; not executed | ClientAuth.LoginInheritedNameReachesApi | ClientAuth.LoginOwnProviders |
| auth.js:122-129 | `{ ...this.mockUsers[provider] }` is always an object, so `if (user)` always holds | `login("github")` resolves and stores `{loginTime}` as the session | An unknown provider rejects with `Login failed: Unknown provider` and writes no session | high; not executed | LegacyAuth.UnknownProviderResolves | LegacyAuth.LoginRejectingUnknown |

## Left out

- Express routing plumbing: body parsing, CORS, static files and `listen` (server/index.js:1-13, 189-192). `Api.Serve` keeps only which handler a method and path reach.
- Sequelize, SQLite and `sync({alter: true})`: the table is a map. The `id`, `createdAt` and `updatedAt` columns Sequelize adds are not modelled.
- Storage failures: they are nondeterministic I/O. The model's only 500 is the NOT NULL validation failure of `name`/`provider`.
- Own keys holding `undefined`: an `Object` reads a missing key as `undefined`, so `{vehicleNumber: undefined}` is not distinguished from `{}`. In the code such a key still routes the update (`hasOwnProperty`, client/auth.js:110). `JSON.stringify` then drops it, so the server writes NULL, and the merge fallback's stored session loses it. No caller passes `undefined` (registration.js:107 and :121 pass strings), so the key-absent reading is the only one modelled.
- Absent body fields: an absent (`undefined`) field assigned to a nullable column is modelled as a NULL write. The in-memory reply then omits the key rather than sending `null`. That difference is not modelled.
- Non-string JSON values (numbers, booleans, objects) in bodies, rows and the session are not modelled. Their coercion into STRING columns is library behaviour, and the application only stores strings and null.
- `fetch`, `localStorage`, JSON serialisation, `window.location`, DOM updates and `alert`. The server's answer and the session store are parameters.
- ClientAuth.UpdateUser: a rejected `fetch` or an unparsable response is folded into `NotOk`. The modelled message is therefore always `Update failed`, not the runtime's own error.
- Google OAuth: the token client and the userinfo call (client/auth.js:40-95, auth.js:34-80) are foreign SDK and network calls. `hasGoogleClient` stands for whether the client exists.
- `logout`, `setSession`, `getSession` and `redirectIfLoggedIn` are single storage or navigation calls. They appear only as the `Store` value.
- The `Math.random`/`setTimeout` login delay and promise sequencing carry timing only.
- The registration page's `init` DOM wiring (registration.js:55-126) other than the vehicle button's clean-and-validate step (lines 100-107). The phone button handler (lines 114-124) is not modelled.
- URL encoding of the email in API paths: the email is interpolated as is and the route receives it unchanged.
- Characters outside the Basic Multilingual Plane: JavaScript sees them as two UTF-16 units, while the model sees one character. Neither form is a digit, whitespace or Hangul syllable, so no verdict changes.
- `server/inspect-db.js`, `server/test-api.js` and `server/test-status.js` are scripts. They serve only as evidence for the server properties.
