# Login-page account core in Dafny

This project models the account handling of the Login-page application, an
Express/Mongoose backend with a React client. It covers:

- the `User` model: the schema's fields and defaults, the `lowercase`/`trim`
  setters on `email` and `name`, the `pre("save")` hook that hashes a
  modified password, `comparePassword` and `isLocked`;
- the `users` collection, taken one request at a time: `findOne`, `findById`,
  and `save()` with the unique index on `email` checked at insert;
- the `/register`, `/login`, `/logout` and `/status` handlers, each as a
  method that returns the status code, JSON body and cookie action it sends;
- `authMiddleware`: the token comes from the second word of the
  `Authorization` header, or else from the `token` cookie;
- the Google and Facebook verify callbacks: find the user by the provider
  email, or else create a verified user;
- the client's `getPasswordStrength` meter and the yup `registerSchema`.

bcryptjs and jsonwebtoken are modelled as pairs of functions (`Crypto.Bcrypt`,
`Crypto.Jwt`). Each has a `Sound()` predicate that the proofs take as a
precondition:

- `compare(p, hash(p, salt))` holds;
- a signed token is non-empty and contains no space;
- a token verifies to its claims until `iat + ttl` and is refused from then on.

Every environment value is an explicit parameter:

- time (`Date.now()`, in milliseconds);
- bcrypt's salt;
- `NODE_ENV === "production"`;
- the OAuth placeholder password.

`/register` and `/login` pass `email.toLowerCase()` to `findOne`, and the
OAuth callbacks pass the raw profile email. The pre-save hook is an `async`
function that takes no `next`, so the code needs Mongoose 5 or later. Those
versions cast a query's filter value through the path's setters, so every
lookup is for the lowercased and trimmed email, the same form the store
holds. `UserStore.Users.FindOne` models that cast.

The schema declares verification, reset, lockout and refresh-token fields
(auth-backend/models/User.js:26-36), but no route reads or writes them:
`/login` has no 403 or 423 answer, and `/logout` only clears the cookie. The
model keeps those fields at their schema defaults and proves that no route
changes them (`LockoutUntouched`).

Modules, one per source file or library:

- `Common`
- `Text`: JavaScript `toLowerCase`, `trim` and `split`
- `Crypto`
- `UserModel`
- `UserStore`
- `AuthRoutes`
- `AuthMiddleware`
- `Passport`
- `PasswordStrength`
- `RegisterForm`

## Model

| member | source | states |
|---|---|---|
| `Text.ToLowerTrimCommute` | auth-backend/models/User.js:9-10 | Lowercasing and trimming commute, so the order in which the two email setters run does not matter. |
| `Text.TrimFixesExactlyUnpadded` | auth-backend/models/User.js:10 | `trim` leaves a string unchanged exactly when it neither starts nor ends with whitespace. |
| `Text.TrimSlice` | auth-backend/models/User.js:20 | `trim` returns a slice of its input: it cuts only whitespace, and only at the two ends. |
| `Text.TrimUnpadded` | auth-backend/models/User.js:20 | The result of `trim` neither starts nor ends with whitespace. |
| `Text.TrimIdempotent` | auth-backend/routes/auth.js:38 | Trimming twice is trimming once: the route's `name.trim()` and the schema's `trim` setter together trim once. |
| `Text.JoinSplit` | auth-backend/middleware/auth.js:5 | `split(" ")` loses nothing: joining the words gives the header back. |
| `Text.SplitJoin` | auth-backend/middleware/auth.js:5 | Splitting a join of space-free words gives exactly those words back. |
| `UserModel.NormalizeEmailIdempotent` | auth-backend/models/User.js:5-11 | Normalising a stored email changes nothing, and lowercasing before the setters (as `/register` does) gives the same stored email. |
| `UserModel.NormalEmailIff` | auth-backend/models/User.js:5-11 | The setters leave an email unchanged exactly when it has no ASCII uppercase letter and no surrounding whitespace, and every email they produce is of that form. |
| `UserModel.IsLockedWindow` | auth-backend/models/User.js:58-60 | `isLocked(now)` holds iff `lockUntil` is set and `now < lockUntil`. With no `lockUntil` the account is never locked, at `lockUntil` it is already unlocked, and once unlocked it stays unlocked. |
| `UserModel.UntouchedNeverLocked` | auth-backend/models/User.js:30-34 | A record whose lockout fields keep their defaults (`failedLoginAttempts` 0, no `lockUntil`) is never locked. |
| `UserModel.UserDoc.constructor` | auth-backend/models/User.js:4-42 | `new User(init)` lowercases and trims the email and trims the name. It takes the password as given, sets `isVerified` only from an explicit `true`, and starts with `failedLoginAttempts = 0`, no `lockUntil`, `createdAt = now` and the password marked modified. |
| `UserModel.UserDoc.PreSave` | auth-backend/models/User.js:45-50 | The hook replaces a modified password with `hash(password)` and leaves an unmodified one unchanged, so a stored hash is never hashed twice. |
| `UserModel.HashThenCompare` | auth-backend/models/User.js:45-55 | After the hook, the record holds `hash(plaintext)` rather than the plaintext, and `comparePassword(plaintext)` is true. |
| `UserStore.Users.FindOne` | auth-backend/routes/auth.js:27 | With the filter cast through the `lowercase`/`trim` setters, `findOne({ email })` finds a document iff some stored document's `email` field is the normalised query. The document it returns is stored and has that email. |
| `UserStore.Users.FindById` | auth-backend/routes/auth.js:169 | `findById(id)` finds nothing iff no record has that id, and otherwise returns the stored record with that id. |
| `UserStore.Users.EmailsUnique` | auth-backend/models/User.js:8 | No two stored records share an email. |
| `UserStore.Users.NewObjectId` | auth-backend/routes/auth.js:35-39 | A new document's `_id` is one that no stored record has. |
| `UserStore.Users.Save` | auth-backend/models/User.js:4-50 | `save()` runs the `required`/`minlength` validators, then the hook, then the insert. It succeeds iff validation passes and neither the email nor the id is stored. A success adds exactly the document's snapshot under its email. A failure leaves the collection unchanged, as `ValidationError` or `DuplicateKey`. The store invariant (normalised, non-empty, unique emails and ids) is preserved. |
| `UserStore.Users.Create` | auth-backend/routes/auth.js:35-41 | `new User(init).save()` succeeds iff the document passes validation and its normalised email is not stored. Success stores exactly the record built from `init`: normalised email, trimmed name, hashed password, `isVerified` only from an explicit `true`, defaults elsewhere. Failure leaves the store unchanged, with `ValidationError` for an invalid document and `DuplicateKey` otherwise. |
| `AuthRoutes.CreateAccount` | auth-backend/routes/auth.js:34-82 | Once the lookup has missed: an invalid document gives 500 and a stored normalised email gives 400 "User already exists", neither changing the store. Otherwise exactly one record is added under the normalised email, and the answer is 201 with that user and a 24h token in the body and the cookie. |
| `AuthRoutes.Register` | auth-backend/routes/auth.js:7-83 | Any missing or empty field gives 400 "All fields are required"; a password under 6 gives 400; a stored normalised email is found by the lookup and gives 400 "User already exists"; an invalid document gives 500. The unique index never refuses a request the lookup let through. None of these changes the store. A success stores exactly one new record under the normalised email, with the trimmed name, hashed password, `isVerified` false and `createdAt = now`, and answers 201 with a 24h token in the body and in a cookie of 86,400,000 ms. |
| `AuthRoutes.PaddedDuplicateFoundOnLookup` | auth-backend/routes/auth.js:27-32 | An email that differs from a stored one only by leading whitespace is found by the lookup, so the answer is 400 before any document is built. |
| `AuthRoutes.LoginCookieMaxAge` | auth-backend/routes/auth.js:128 | The cookie's `maxAge` equals the token's lifetime in milliseconds. |
| `AuthRoutes.Login` | auth-backend/routes/auth.js:86-149 | A missing field gives 400 "Email and password are required". An email whose normal form is not stored, or a password bcrypt refuses, gives 400 "Invalid credentials". Otherwise the answer is 200 with a token signed over the user's id, email and name for 7d (`rememberMe`) or 24h. The store is only read. |
| `AuthRoutes.LoginTokenLifetime` | auth-backend/routes/auth.js:116-129 | The login token is the one in the cookie, verifies to the user's claims exactly until `iat + ttl`, and the cookie lives `ttl * 1000` ms. |
| `AuthRoutes.LoginFailuresAlike` | auth-backend/routes/auth.js:100-113 | An unknown email and a wrong password get identical responses. |
| `AuthRoutes.Logout` | auth-backend/routes/auth.js:152-158 | Logout always answers 200 and clears the `token` cookie. |
| `AuthRoutes.Status` | auth-backend/routes/auth.js:161-186 | The answer is always 200. It is authenticated iff the cookie is non-empty, verifies now, and names an id that a stored user has; it then shows that user's id, email and name. Otherwise it is `{ isAuthenticated: false }` with no user. |
| `AuthRoutes.StatusAfterLogout` | auth-backend/routes/auth.js:152-186 | After logout, status is unauthenticated whatever cookie the browser held. |
| `AuthRoutes.RegisteredCookieAuthenticates` | auth-backend/routes/auth.js:45-57 | The cookie that register sets names the new user's id throughout the next 24 hours. |
| `AuthRoutes.RegisterThenStatus` | auth-backend/routes/auth.js:7-186 | After a 201 from register, status within 24 hours shows exactly the registered user. |
| `AuthRoutes.RegisterThenLogin` | auth-backend/routes/auth.js:7-149 | After a 201 from register, login with the same password and any email with the same normal form (other case, surrounding whitespace) succeeds. It shows the same user and a token over that user's claims. |
| `AuthMiddleware.HeaderWins` | auth-backend/middleware/auth.js:5 | A header whose second word is non-empty supplies the token, whatever the scheme word, and the cookie is ignored. |
| `AuthMiddleware.OneWordHeaderFallsBack` | auth-backend/middleware/auth.js:5 | A header with no space in it yields no token, so the cookie decides. |
| `AuthMiddleware.EmptySecondWordFallsBack` | auth-backend/middleware/auth.js:5 | A header whose second word is empty (`"Bearer "`, or a double space) yields no token, so the cookie decides. |
| `AuthMiddleware.CookieGateAgreesWithStatus` | auth-backend/middleware/auth.js:5-16 | With no header, the middleware admits a cookie iff `/status` reads a user id from it, and the claims name that id. |
| `AuthMiddleware.TokenOutlivesLogout` | auth-backend/middleware/auth.js:5-14 | A login token sent as `Bearer <token>` is still admitted after logout until it expires, with the user's claims. |
| `AuthMiddleware.Authenticate` | auth-backend/middleware/auth.js:3-18 | No usable token gives 401 "No token, authorization denied"; a token that does not verify gives 401 "Token is not valid". In both cases `next` is not called and `req.user` is unchanged. Otherwise `req.user` is the decoded claims and `next` is called exactly once. |
| `Passport.FindOrCreate` | auth-backend/config/passport.js:15-29 | A stored user under the normal form of the given email is returned and nothing is written. Otherwise `save()` either fails (`done(error, null)`, store unchanged) or inserts one account under the normalised email, which is returned with `done(null, user)`. |
| `Passport.GoogleVerify` | auth-backend/config/passport.js:13-33 | A profile with no email ends in `done(TypeError, null)`. Otherwise it is find-or-create with the Google fields. |
| `Passport.FacebookVerify` | auth-backend/config/passport.js:45-66 | A profile with no email ends in `done(TypeError, null)`. Otherwise it is find-or-create with the Facebook fields. |
| `Passport.GoogleSignUp` | auth-backend/config/passport.js:18-26 | A created Google user is verified, stored under the normalised first email, named by `displayName`, and has the hash of the placeholder as its password. It has defaults elsewhere, and is the only record added. |
| `Passport.FacebookSignUp` | auth-backend/config/passport.js:51-59 | A created Facebook user is the same, named `givenName + " " + familyName`, trimmed. |
| `Passport.ExistingUserReturned` | auth-backend/config/passport.js:15-29 | A user stored under the normal form of the profile email is passed to `done` unchanged, and nothing is written. |
| `Passport.AtMostOneInsert` | auth-backend/config/passport.js:15-27 | Two runs for the same email, each with its own placeholder, salt and time, add at most one record, under the normalised email. |
| `Passport.IdempotentSignIn` | auth-backend/config/passport.js:15-29 | After a run that handed a user to `done`, a second run for an email with the same normal form returns that user and writes nothing, whatever its placeholder, salt and time. |
| `Passport.NamelessFacebookProfileRefused` | auth-backend/config/passport.js:53-59 | A Facebook profile with an empty given and family name cannot create a user: `" "` trims to `""` and fails `required`. |
| `PasswordStrength.ScoreRange` | auth-frontend/src/pages/Register.jsx:78-93 | A non-empty password scores between 1 and 5, so `strengths[score - 1]` always exists and the `||` fallback is never taken. |
| `PasswordStrength.ScoreMonotone` | auth-frontend/src/pages/Register.jsx:79-83 | Appending characters never lowers the score. |
| `PasswordStrength.GetPasswordStrength` | auth-frontend/src/pages/Register.jsx:75-94 | `""` gives `{strength: 0, label: "", color: ""}`. Any other password gives the table entry for its score: 1 Very Weak, 2 Weak, 3 Fair, 4 Good, 5 Strong. |
| `PasswordStrength.ProgressBarStaysEmpty` | auth-frontend/src/pages/Register.jsx:171 | As written, the progress bar's width is 0% for every password, including `Abcde1!`, which scores 5 ("Strong"). |
| `PasswordStrength.IntendedWidthTracksScore` | auth-frontend/src/pages/Register.jsx:171 | With the score carried in `strength`, the width is `20 * score`: from 20% to 100% for a non-empty password, with the same label and colour. |
| `RegisterForm.AcceptedPasswordIsGood` | auth-frontend/src/pages/Register.jsx:21-28 | A password the schema accepts scores at least 4, so the meter shows "Good" or "Strong". |
| `RegisterForm.SingleLinePasswordRule` | auth-frontend/src/pages/Register.jsx:21-28 | For a one-line password, the schema accepts it iff it has length ≥ 6, a lowercase letter, an uppercase letter and a digit. |
| `RegisterForm.SecondLineNotSearched` | auth-frontend/src/pages/Register.jsx:24-27 | The regex searches only the first line: `"\nabcD1"` scores 5 and is refused. |
| `RegisterForm.AcceptedFormPassesServerChecks` | auth-frontend/src/pages/Register.jsx:11-36 | A form the schema accepts (name of 2..50 characters, email, password rule, matching confirmation, terms not refused) gets past `/register`'s missing-field and length checks. |
| `RegisterForm.ServerAcceptsWhatFormRefuses` | auth-backend/routes/auth.js:14-24 | The server's checks are weaker than the form's: `"aaaaaa"` passes them but not the schema. |
| `RegisterForm.BlankNameAcceptedThenRefused` | auth-frontend/src/pages/Register.jsx:12-16 | A name of two spaces passes the schema. `/register` then trims it to `""` and answers 500. |

## Left out

- Lookups: Mongoose's query casting is modelled only for the `email` path's `lowercase` and `trim` setters. Other casts, regular-expression filters and query operators are not modelled.
- Text.ToLowerChar: lowercases ASCII letters only. JavaScript's Unicode case mapping is not modelled.
- Lengths: all lengths (`length >= 6`, `min(2)`, `max(50)`) count code points, not UTF-16 code units.
- Thrown errors: non-string request fields that make `toLowerCase`/`trim` throw, database errors, and the resulting 500 "Login failed" and `/status` catch paths are not modelled. Only the thrown `jwt.verify` is, as `None`.
- Email format: the address syntax of yup's `email()` is a parameter (`isEmail`); the server does not check it.
- Crypto: bcrypt's cost factor, random salts, JWT encoding and the secret are abstract. Salt and time are inputs.
- Placeholder password: `Math.random().toString(36).slice(-8)` is an input. A placeholder shorter than 6 characters is refused by `minlength` like any other.
- `provider` and `providerId` are not schema paths. Mongoose's strict mode drops them, so they appear only in `UserInit`.
- Not written by any code here: the lockout, verification, reset and refresh-token fields and `lastLogin`. No code sets them, so no transition is modelled; only `isLocked` is.
- `failedLoginAttempts` is declared with the misspelt type `Nummber`. It is modelled as the evidently intended natural number defaulting to 0.
- Concurrency: requests are sequential, so the read-then-insert race in `/register` is absent. The duplicate-key branch (auth-backend/routes/auth.js:73-77) is modelled in `AuthRoutes.CreateAccount`, but a sequential `/register` never reaches it.
- OAuth: strategy configuration, token exchange and passport's session serialisation are not modelled.
- Facebook names: `undefined` name parts, which the template would render as `"undefined"`, are not modelled.
- UI: React rendering, toasts, navigation, logging (`console.log`), helmet, rate limiting and the captcha are not modelled.

## Findings

| source | as written | input that shows it | evidently intended | confidence | as-written member | corrected member |
|---|---|---|---|---|---|---|
| auth-frontend/src/pages/Register.jsx:171 | For a non-empty password, `getPasswordStrength` returns a `strengths` entry, which has only `label` and `color`. So `(strength \|\| 0) * 20` is always 0 and the bar never fills. | `Abcde1!`: label "Strong", width 0% | `strength` carries the score, and the width is `20 * score`% | not executed | `PasswordStrength.ProgressBarStaysEmpty` | `PasswordStrength.IntendedWidthTracksScore` |
