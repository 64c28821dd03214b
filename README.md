# MiniTwitterFrontend core, modelled in Dafny

This project models the logic under the MiniTwitterFrontend single-page client and proves what that logic promises. The client is a React front end for a small Twitter-like service. The logic is:

- **the error normaliser** (`handleError`, `getErrorData`). It turns a failed HTTP call into `{status: false, code, message}`. The checks run in a fixed order: cancellation, timeout, the statuses 400/401/403 (where the server's own `message` or `detail` is used when present), then 404/409/413, then a generic fallback. The 401 and 403 default labels are kept exactly as the program writes them: 401 gives "Forbidden" and 403 gives "Unauthorized".
- **the session store** (`TokenService`). It is one `localStorage` entry, `"mini-tweeter-user"`, holding the signed-in user as JSON text. Reads map both a missing entry and unparsable text to `null`. The access token is the stored user's `access` field.
- **the request interceptor** of the HTTP client. It adds `Authorization: Bearer <token>` when the stored token is truthy.
- **the authentication calls** `Register`, `Login` and `Logout`. They shape an HTTP outcome into `false` (outside a browser), `undefined` (an unexpected status), `{status: true, data}` (the expected status) or the normalised error.
- **the home feed**. This covers like/retweet toggles with their counters, posting a tweet, appending a comment, the two per-tweet open/closed maps and logging out. It also keeps the program's quirk that a comment-level toggle matches the comment id in every tweet and ignores the tweet id.
- **the form schemas** of the profile, sign-up and login pages, the profile page's initial values, and its submit handler. The handler builds the update payload and merges the server's answer into the stored session.

JavaScript values are one datatype (`JsValue.Value`). It comes with the parts of the language the code relies on: truthiness, `||`, property access, the `in` operator, object spread and string conversion. `JSON.stringify` and `JSON.parse` are a real codec (`JsonCodec`), and its round trip is proved rather than assumed. Each zod schema is modelled by the set of issues it reports, and an input is accepted exactly when that set is empty.

State the program changes in place becomes classes:

- `TokenService` over a `storage` map;
- `RequestConfig`, whose headers the interceptor rewrites;
- `HomePage`, with the feed and the two toggle maps;
- `ProfilePage`, with its loading/error/success flags and its form.

Their methods are tied to pure functions, and the properties are lemmas about those functions.

Inputs the code gets from outside are parameters:

- the outcome of each HTTP request (`HttpOutcome`, `UpdateOutcome`);
- whether the code runs in a browser;
- the clock reading `Date.now()`;
- the email-format test of zod's `.email()`.

## Model

| member | source | states |
|---|---|---|
| JsValue.LookupOverlay | src/pages/profile/index.tsx:125-131 | In `{...a, ...b}` a key of `b` takes `b`'s value, every other key keeps `a`'s, and the keys are those of both |
| JsValue.LookupSpread | src/pages/profile/index.tsx:125-131 | A spread copy `{...v}` has exactly the keys and values of `v`'s own properties |
| JsonCodec.Normalize | src/services/localstorage.service.ts:4 | The JSON projection `JSON.stringify` encodes is always a JSON value |
| JsonCodec.NormalizeJson | src/services/localstorage.service.ts:4 | The projection leaves a JSON value as it is |
| JsonCodec.NormalizeLookup | src/services/localstorage.service.ts:4 | Under every key, the projection of an object reads as the projection of what the object reads there (the last entry wins), and a key that reads as undefined is gone |
| JsonCodec.ShadowedByUndefined | src/services/localstorage.service.ts:4 | A key whose last entry is undefined is dropped even when an earlier entry defines it |
| JsonCodec.Encode | src/services/localstorage.service.ts:4 | The text of a value is never empty and starts as a JSON value does; `ParseEncode` makes `Parse` its inverse on JSON values |
| JsonCodec.Stringify | src/services/localstorage.service.ts:4 | `JSON.stringify` yields no text exactly for undefined |
| JsonCodec.Parse | src/services/localstorage.service.ts:11 | Whatever `JSON.parse` accepts is a JSON value (no undefined anywhere in it) |
| JsonCodec.ValueRoundTrip | src/services/localstorage.service.ts:11 | The text of any JSON value parses back to that value, with the following text left over, whatever non-numeric text follows |
| JsonCodec.ParseEncode | src/services/localstorage.service.ts:11 | `JSON.parse` undoes the encoding of every JSON value |
| JsonCodec.StringifyRoundTrip | src/services/localstorage.service.ts:3-11 | `JSON.parse(JSON.stringify(v))` is the JSON projection of any defined `v`, and `v` itself when `v` is JSON |
| ErrorHandling.GetErrorData | src/services/utils.ts:91-104 | A result exists exactly when the body's `message` or `detail` is truthy; it has `status` false, the response status as its code, and the message, or else the detail, as its message |
| ErrorHandling.HandleError | src/services/utils.ts:2-89 | The normaliser equals the table-driven classification `Expected`; `status` is always false; the code is null or one of the six recognised statuses |
| ErrorHandling.CanceledFirst | src/services/utils.ts:3-9 | An error whose message is "canceled" gives `{false, null, "canceled"}` whatever its response holds |
| ErrorHandling.TimeoutSecond | src/services/utils.ts:11-17 | An error whose message is "timeout" gives `{false, null, "timeout"}` |
| ErrorHandling.BodyExplains | src/services/utils.ts:19-50 | For 400, 401 and 403 with a truthy body `message` or `detail`, the code is the status and the message is `message` if truthy, else `detail` |
| ErrorHandling.DefaultLabels | src/services/utils.ts:26-56 | Without a body explanation, 400 gives "Bad request", 401 "Forbidden" and 403 "Unauthorized", each with its status as the code |
| ErrorHandling.FixedLabels | src/services/utils.ts:59-81 | 404, 409 and 413 give "Not found", "Conflict" and "Selected profile picture is too large" with the status as the code, whatever the body holds |
| ErrorHandling.Fallback | src/services/utils.ts:84-88 | Every error that is not cancelled, timed out or of a recognised status gets the generic message with a null code |
| ErrorHandling.FallbackExamples | src/services/utils.ts:19-88 | A null error, an error without a response and a response of any unrecognised status (500, say) all get the generic result |
| TokenStorage.StoredText | src/services/localstorage.service.ts:3-5 | The stored text is never empty, and it is "undefined" exactly when the user is undefined |
| TokenStorage.UserIn | src/services/localstorage.service.ts:7-15 | A read yields a JSON value; a missing or empty entry, or text JSON cannot parse, reads as null |
| TokenStorage.AccessTokenIn | src/services/localstorage.service.ts:17-20 | The token is undefined unless the stored user is an object, and undefined for an object user without an `access` field |
| TokenStorage.TokenService.SetUser | src/services/localstorage.service.ts:3-5 | Storage afterwards is the old storage with only the user key overwritten by the stored text |
| TokenStorage.TokenService.GetUser | src/services/localstorage.service.ts:7-15 | Returns `UserIn(storage)` and changes nothing |
| TokenStorage.TokenService.GetLocalAccessToken | src/services/localstorage.service.ts:17-20 | Returns the stored user's `access` field and changes nothing |
| TokenStorage.TokenService.RemoveUser | src/services/localstorage.service.ts:22-24 | Storage afterwards is the old storage without the user key |
| TokenStorage.SetThenGet | src/services/localstorage.service.ts:3-11 | A written user reads back as its JSON projection, and as itself when it is JSON; other keys are untouched |
| TokenStorage.MemberAfterSet | src/services/localstorage.service.ts:3-11 | After an object user is written, each property reads back as the projection of what it held; a property that held undefined is absent |
| TokenStorage.SetUndefinedReadsNull | src/services/localstorage.service.ts:3-14 | Writing undefined stores "undefined", and the user then reads as null |
| TokenStorage.TokenAfterSet | src/services/localstorage.service.ts:17-20 | After writing a JSON user, the token is that user's `access` field |
| TokenStorage.RemoveIdempotent | src/services/localstorage.service.ts:22-24 | Removing twice equals removing once; afterwards the user is null and the token undefined |
| TokenStorage.NoObjectNoToken | src/services/localstorage.service.ts:17-20 | A stored user that is not an object, null included, has no token |
| Api.Authorize | src/services/api.ts:20-23 | A truthy token adds exactly the `Authorization` header, `"Bearer " + token`; a falsy one leaves the headers as they were; other headers never change |
| Api.Intercept | src/services/api.ts:18-25 | The same config comes back with its headers authorized by the stored access token; url, method and data are unchanged, and so is storage |
| Api.TimeoutError | src/services/api.ts:10-11 | A timed-out request rejects with an error whose message is "timeout" and which has no response |
| Api.TimeoutNormalized | src/services/api.ts:10-11 | The timeout rejection normalises to `{false, null, "timeout"}` |
| Api.BearerAfterLogin | src/services/api.ts:19-24 | After a session with a truthy `access` is stored, the interceptor adds exactly `Bearer <access>` |
| AuthService.Shape | src/services/auth/auth.service.ts:6-58 | No request and `false` outside a browser; otherwise one POST of the payload, success exactly on the expected status with the response body, `undefined` on another status, the normalised error on a rejection |
| AuthService.Register | src/services/auth/auth.service.ts:6-22 | In a browser it posts the payload to `/register/`, and nothing outside one; it succeeds exactly on status 201 |
| AuthService.Login | src/services/auth/auth.service.ts:24-40 | In a browser it posts the payload to `/login/`, and nothing outside one; it succeeds exactly on status 200 |
| AuthService.Logout | src/services/auth/auth.service.ts:42-58 | In a browser it posts the payload to `/logout/`, and nothing outside one; it succeeds exactly on status 201 |
| AuthService.OutsideBrowser | src/services/auth/auth.service.ts:4-7 | Outside a browser none of the three calls sends a request, and each returns `false` |
| AuthService.SuccessStatuses | src/services/auth/auth.service.ts:11-54 | Register succeeds exactly on 201, Login exactly on 200 and Logout exactly on 201; any other status gives `undefined` |
| AuthService.RejectedCalls | src/services/auth/auth.service.ts:19-57 | A rejected call returns `handleError(error)`, whose `status` is false |
| LoginForm.Issues | src/pages/auth/login/index.tsx:25-28 | Every issue of the login schema is on `email` or `password`; `LoginForm.Accepted` says when there are none |
| LoginForm.Accepted | src/pages/auth/login/index.tsx:25-28 | The login form is accepted exactly for a non-empty, well-formed email and a non-empty password |
| LoginForm.RequiredMessages | src/pages/auth/login/index.tsx:26-27 | An empty email reports "Email is required"; an empty password reports "Password is required"; with a password given, only the email can fail |
| LoginForm.DefaultsRejected | src/pages/auth/login/index.tsx:32-35 | The initial values fail on both fields |
| SignUpForm.Issues | src/pages/auth/sign-up/index.tsx:26-40 | Every issue of the sign-up schema is on one of its six fields; `SignUpForm.Accepted` says when there are none |
| SignUpForm.Accepted | src/pages/auth/sign-up/index.tsx:26-40 | The sign-up form is accepted exactly when all five text fields are filled, the email is well formed, the terms are agreed and the passwords are equal |
| SignUpForm.RefinementMessages | src/pages/auth/sign-up/index.tsx:28-40 | Each empty field, unchecked terms and unequal passwords each report their own message on their own field |
| SignUpForm.ShortPasswordAccepted | src/pages/auth/sign-up/index.tsx:31-37 | A confirmed one-character password passes |
| SignUpForm.DefaultsRejected | src/pages/auth/sign-up/index.tsx:44-51 | The initial values report all five required-field issues and the terms issue |
| Home.React | src/pages/home/index.tsx:215-269 | A like or retweet keeps the feed's length and order and every tweet's id, content, author and number of comments; `Home.ReactTwice` is its inverse |
| Home.ToggleComment | src/pages/home/index.tsx:221-229 | A comment toggle flips the flag and moves the counter by -1 when it was set, +1 otherwise, and changes nothing else |
| Home.ToggleTweet | src/pages/home/index.tsx:231-236 | A tweet toggle flips the flag and moves the counter by -1 when it was set, +1 otherwise, and changes nothing else |
| Home.TweetReaction | src/pages/home/index.tsx:215-241 | Aimed at a tweet, a reaction toggles exactly the tweets with that id; all other tweets and all comments stay as they were; length and order are kept |
| Home.CommentReaction | src/pages/home/index.tsx:218-230 | Aimed at a comment, a reaction toggles every comment with that id in every tweet; tweet-level fields and comment counts per tweet are unchanged |
| Home.CommentReactionIgnoresTweetId | src/pages/home/index.tsx:218 | A comment-level reaction gives the same feed whatever tweet id it is given |
| Home.ToggleCommentTwice | src/pages/home/index.tsx:225-226 | Toggling a comment twice restores it |
| Home.ReactTweetTwice | src/pages/home/index.tsx:217-238 | Applying the handler's per-tweet step twice with the same arguments restores the tweet |
| Home.ReactTwice | src/pages/home/index.tsx:215-269 | Liking (or retweeting) twice with the same arguments restores the feed |
| Home.SeedFeedOk | src/pages/home/index.tsx:84-170 | The seeded feed satisfies the counter invariant |
| Home.ReactKeepsCounters | src/pages/home/index.tsx:215-269 | Every like or retweet toggle keeps each counter non-negative and at least one while its flag is set |
| Home.CreateTweet | src/pages/home/index.tsx:199-213 | Exactly one tweet is prepended, with the given content, the current user as author, the clock-derived id, `createdAt` "now", zero counts, no comments and both flags false |
| Home.AddCommentEffect | src/pages/home/index.tsx:296-314 | Only tweets with the id change, each by one comment at the end with the content, the current user, id `<tweetId>-<now>`, `createdAt` "now", zero counts and both flags false |
| Home.AddComment | src/pages/home/index.tsx:296-314 | The feed keeps its length and ids; each tweet with the id gains exactly one comment after its old ones, and every other tweet keeps its comments |
| Home.PostingKeepsCounters | src/pages/home/index.tsx:199-314 | Posting a tweet or a comment keeps the counter invariant |
| Home.TweetIssues | src/pages/home/index.tsx:66-68 | The tweet schema reports nothing exactly for 1 to 280 characters, and only on `content` |
| Home.CommentIssues | src/pages/home/index.tsx:70-72 | The comment schema reports nothing exactly for 1 to 280 characters, and only on `content` |
| Home.ContentAccepted | src/pages/home/index.tsx:66-72 | Tweet and comment content is accepted exactly at 1 to 280 characters, with the schemas' messages |
| Home.Toggle | src/pages/home/index.tsx:271-283 | Toggling flips the given key (absent reads as closed) and changes no other key |
| Home.ToggleTwice | src/pages/home/index.tsx:271-283 | Toggling a key twice leaves every key open or closed as before |
| Home.HomePage.constructor | src/pages/home/index.tsx:174-176 | The page starts with the seeded feed and empty toggle maps, and the counter invariant holds |
| Home.HomePage.HandleLike | src/pages/home/index.tsx:215-241 | The feed becomes the like reaction of the old feed, and the invariant is kept |
| Home.HomePage.HandleRetweet | src/pages/home/index.tsx:243-269 | The feed becomes the retweet reaction of the old feed, and the invariant is kept |
| Home.HomePage.ToggleComments | src/pages/home/index.tsx:271-276 | The expanded-comments map becomes its toggle at the tweet id |
| Home.HomePage.ToggleCommentForm | src/pages/home/index.tsx:278-283 | The comment-form map becomes its toggle at the tweet id |
| Home.HomePage.SubmitTweet | src/pages/home/index.tsx:189-213 | Returns the schema's issues; the tweet is posted exactly when there are none |
| Home.HomePage.SubmitComment | src/pages/home/index.tsx:285-317 | Returns the schema's issues; when there are none the comment is added and that tweet's comment form is set closed |
| Home.HomePage.HandleLogout | src/pages/home/index.tsx:178-187 | The stored session is removed whether the logout call completes or throws |
| Profile.Issues | src/pages/profile/index.tsx:31-57 | Every issue of the profile schema is on one of its six fields; `Profile.Accepted` says when there are none |
| Profile.RequiredFields | src/pages/profile/index.tsx:33-36 | Each of username, name, lastName and email reports its own message when empty |
| Profile.NoPasswordNoRefinement | src/pages/profile/index.tsx:37-57 | An empty or absent password passes both refinements, whatever the confirmation holds |
| Profile.PasswordRefinements | src/pages/profile/index.tsx:40-57 | With a password given, "Passwords don't match" on confirmPassword exactly when they differ, and the six-character message on password exactly when it is shorter |
| Profile.Accepted | src/pages/profile/index.tsx:31-57 | The profile form is accepted exactly when the four fields are filled, the email is well formed and a given password is confirmed and at least six characters long |
| Profile.UserData | src/pages/profile/index.tsx:70 | The user data is `user.user` when the session is an object with a `user` key, `{}` otherwise |
| Profile.DefaultValues | src/pages/profile/index.tsx:78-85 | Both password fields start as ""; every other field starts truthy or as "", never undefined or null |
| Profile.DefaultsFromSession | src/pages/profile/index.tsx:78-100 | The name comes from `name`, else `firstName`, else ""; both password fields start ""; a truthy stored username, last name or email is prefilled unchanged, and a falsy one becomes "" |
| Profile.DefaultsWithoutSession | src/pages/profile/index.tsx:69-85 | Without a stored user every field starts empty |
| Profile.UpdateDataFields | src/pages/profile/index.tsx:108-117 | The payload always carries the four profile fields, and carries `password` exactly when a non-empty one is given |
| Profile.UpdateData | src/pages/profile/index.tsx:108-117 | The payload is an object of string fields: five with a given password, four without; `Profile.UpdateDataFields` names them |
| Profile.MergedSession | src/pages/profile/index.tsx:125-131 | The merged session is an object whose `user` key holds an object |
| Profile.MergeEffect | src/pages/profile/index.tsx:125-131 | In the merged session, `user` is the old user data with the response fields written over it, and every other top-level field of the old session is kept |
| Profile.InTypeError | src/pages/profile/index.tsx:141 | The TypeError thrown by `in` on a primitive response has a non-empty message |
| Profile.CaughtMessage | src/pages/profile/index.tsx:145-146 | The catch block always shows a truthy error: the thrown error's `message`, else the catch-all text |
| Profile.RefusalMessage | src/pages/profile/index.tsx:139-144 | A refused update always shows a truthy error: "Failed to update profile", the response's `message`, or the TypeError's message |
| Profile.SubmitEffect | src/pages/profile/index.tsx:121-146 | Success exactly for a response with a truthy `status`; the form resets exactly on success; success shows no error, failure always shows one; a session is stored only on success with data |
| Profile.AcceptedWithData | src/pages/profile/index.tsx:121-133 | A truthy `status` with truthy `data` means success, no error, a form reset and the merged session stored; reading it back gives its JSON projection |
| Profile.Refused | src/pages/profile/index.tsx:139-144 | A refused response writes nothing; the error is its `message` if truthy, else "Failed to update profile"; for a primitive response it is the TypeError's message |
| Profile.Thrown | src/pages/profile/index.tsx:145-146 | A thrown error writes nothing and shows its `message`, else "Something went wrong. Please try again." |
| Profile.ProfilePage.constructor | src/pages/profile/index.tsx:69-87 | The page reads the session once and starts with the derived initial values, not loading, with no error and no success |
| Profile.ProfilePage.OnSubmit | src/pages/profile/index.tsx:102-150 | Called only with values the schema accepts; afterwards loading is false, and success, error, storage and form are exactly what the effect of the call's outcome prescribes |

## Left out

- JsonCodec.Normalize: a list that names a key twice with defined values is encoded entry by entry, where JavaScript writes only the last entry. No JavaScript object has that shape. Every key still reads back the same, because lookup sees the last entry (`JsonCodec.NormalizeLookup`).
- JsonCodec.Parse: numbers are integers. A number with a fraction or an exponent makes the parse fail, where `JSON.parse` would accept it. A stored session holding such a number therefore reads as null in the model.
- JsValue.Value: `Num` holds any integer. It stands for JavaScript numbers that are integral and below 1e21 in magnitude. From 1e21 on, JavaScript writes numbers in exponent form (`"1e+21"`), and beyond 2^53 it cannot hold every integer exactly. Neither the exponent form nor that loss of precision is modelled.
- JsonCodec.Parse: a `\uXXXX` escape naming a UTF-16 surrogate is rejected. JavaScript would combine a surrogate pair into one character.
- JsValue.Value: objects keep their keys in insertion order. JavaScript lists integer-like keys first, in ascending order. This changes the order of encoded text and of spread copies, never the value a key reads.
- JsValue.Member: property access sees only an object's own data properties. Inherited and built-in properties, getters and proxies are not modelled.
- String lengths (zod's `min`/`max`, `password.length`): the model counts Unicode scalar values, not UTF-16 code units. The two differ for characters outside the Basic Multilingual Plane.
- zod's order and abort rules for collecting issues are not modelled. A schema is the set of issues it reports. For these schemas every check runs, because no check is fatal. `.email()` is a parameter, and its message is zod's default "Invalid email".
- The HTTP client's network behaviour is not modelled: base URL, credentials, the 120-second timer, the default `Accept`/`Content-Type` headers, the identity error interceptor, and axios's rejection of non-2xx statuses. Each request's outcome is an input, and a timeout appears only as its error, with message "timeout".
- `window` and `Date.now()` are parameters (`isBrowser`, `now`). The logout request that `handleLogout` sends first is not modelled: a POST to `/logout/`, still carrying the bearer token because the session is removed only after it. Whether that request completes or throws is not an input either, because both paths then remove the session.
- `AuthService.UpdateProfile`: the profile page calls it, but the auth service's exported object does not define it. Its outcome is therefore a parameter of `OnSubmit`. As the code stands, the call throws a TypeError; that case is the `Threw` outcome.
- Profile.InTypeError: the wording of the TypeError for `"message" in <primitive>` is V8's. Other engines word it differently.
- Rendering, navigation (`navigate("/")`), hook lifecycles and asynchronous interleaving are not modelled. Each handler runs to completion on its own. Form resets of the tweet and comment forms are UI state and are not modelled. The profile page keeps the session user it read when it rendered and does not re-read it after a write.
- The login and sign-up `onSubmit` handlers only log to the console and are not modelled. The show/hide-password toggles, the theme, the route table, the auth layout and the JSX markup are also not modelled.
- Storage failures are not modelled: `localStorage` quota errors and unavailable storage.
