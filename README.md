# Request gate of an Express API: `protect`, `authorize` and `trueIp`

A Dafny model of the request gate of a small Express backend. It covers three middleware functions.

- `protect` chooses a candidate token. It takes the second space-separated piece of an `Authorization` header that starts with `"Bearer"`. Otherwise it takes the `token` cookie. It passes the token to `jwt.verify` with the signing secret. It looks up the decoded `id` with `User.findById` and stores the result in `req.user`. Every rejection calls `next` with the same 401 error. The one exception is a request without a Bearer header whose `req.cookies` is undefined: reading the cookie throws a `TypeError` instead (see below).
- `authorize(...roles)` calls `next()` when `req.user.role` is one of `roles`. Otherwise it calls `next` with a 403 error. When `req.user` is `undefined` or `null`, reading its `role` throws a `TypeError` instead, and `next` is not called.
- `trueIp` stores the first truthy value among the `cf-connecting-ip` header, the `x-forwarded-for` header and the socket's remote address in `req.cf_ip`, if there is such a value. Then it calls `next()`.

Files and modules:

- `wrappers.dfy` (`Wrappers`): `Option`, which stands for JavaScript's `undefined`.
- `js_string.dfy` (`JsString`): the JavaScript string behaviour the middleware depends on. This is truthiness (`Truthy`), `||` (`Or`, with `OrAssociative` for chains of it), `startsWith` (`StartsWith`), `split(" ")` (`Split`) with its inverse `join(" ")` (`Join`), and array indexing that gives `undefined` past the end (`Piece`).
- `express.dfy` (`Express`): reading a header or cookie by name (`Field`, `undefined` when the name is absent), the request object (a class whose `user` and `cfIp` fields are written in place), user records, the error object, and the *effects*. An effect is one call a middleware makes into code outside it: the verifier, the user store, `next`, or an exception thrown out of the handler. Each middleware method returns its effects in order. This is how "never calls the verifier" and "calls `next` exactly once" are stated.
- `auth.dfy` (`Auth`): `protect` has three parts. `SelectToken` is token selection. `Authenticate` is verification and binding. `ProtectSpec` is the whole run, and the method `Protect` follows the source statement by statement. `authorize` is the function `AuthorizeOutcome` plus the method `Authorize`. The file also holds the lemmas about both gates.
- `client_ip.dfy` (`ClientIp`): `trueIp`.

Outside code is passed in as parameters:

- `jwt.verify(token, secret)` is an arbitrary function from token and secret to an optional decoded payload. `None` means that it throws, whether for a bad signature, a malformed token or an `exp` claim in the past.
- `User.findById` is an arbitrary function from an id to `Found(user)`, `Missing` (it resolves to `null`) or `Failed` (it rejects).
- The signing secret is an immutable parameter.

Some behaviour of the code that a reader might not expect, all of it modelled as the code has it:

- The token is `split(" ")[1]`. This is the text between the first and the second space, not everything after the first space.
- The prefix test is `startsWith("Bearer")`, and it differs from the `"Bearer" 1*SP b64token` form of section 2.1 of RFC 6750 in both directions. It is looser because no space has to follow the scheme, so `Bearerx t` selects `t`. It is stricter in two ways. The test is case-sensitive, so `bearer abc` goes to the cookie branch, although auth schemes are case-insensitive (section 2.1 of RFC 7235). And `split(" ")[1]` gives an empty token, so a 401, for `Bearer  t` with two spaces, which `1*SP` allows. A header of exactly `Bearer` selects no token, and the cookie is not consulted.
- A verified token whose user no longer exists is not rejected. `req.user` becomes `null` and `next()` is called with no error. The role gate then throws a `TypeError` when it reads `req.user.role` (`Auth.GateSoundness`).
- A failing user-store lookup is reported as the same 401 error, not as a server error.
- `app.js` mounts no cookie parser. When there is no Bearer header and `req.cookies` is undefined, reading `req.cookies.token` throws outside the `try`. The model records this as `Raise(TypeError)`, and `next` is then not called by `protect` itself.

## Model

| member | source | states |
|---|---|---|
| `JsString.Or` | middleware/trueIp.js:6-9 | JavaScript's logical or is truthy exactly when one of its operands is, and it always returns one of its two operands |
| `JsString.JoinSplit` | middleware/auth.js:15 | joining the pieces of `split(" ")` with single spaces gives back the original header |
| `JsString.SplitJoin` | middleware/auth.js:15 | splitting a space-join of space-free pieces gives back those pieces, so `Join` is the exact inverse |
| `JsString.SplitPiecesHaveNoSpace` | middleware/auth.js:15 | no piece of `split(" ")` contains a space |
| `JsString.SplitNoSpace` | middleware/auth.js:15 | a string without a space splits into itself alone |
| `JsString.SplitAtFirstSpace` | middleware/auth.js:15 | the text before the first space is the first piece, and the rest is split on its own |
| `Auth.Protect` | middleware/auth.js:7-46 | the effects of `protect` and the new `req.user` match `ProtectSpec`; `req.user` is written only when `ProtectSpec` binds a value, and nothing else changes |
| `Auth.BearerTokenCases` | middleware/auth.js:10-15 | for every header shape: no space gives no token; otherwise the token is the text between the first space and the next space or the end |
| `Auth.CanonicalBearerHeader` | middleware/auth.js:10-15 | a selected Bearer token never contains a space; `Bearer <t>` with a space-free `t` yields exactly `t` |
| `Auth.NoTokenNoLookup` | middleware/auth.js:10-29 | with no Bearer header and no truthy `token` cookie, the only effect is `next` with the 401 error; the verifier and the store are never called and `req.user` is not written |
| `Auth.HeaderBeatsCookie` | middleware/auth.js:10-19 | with a Bearer header the token is `split(" ")[1]` of the header, and the whole run is the same for any cookies, present or absent |
| `Auth.BareSchemeRejects` | middleware/auth.js:10-29 | a header of exactly `Bearer` ends in the 401 error with nothing bound, whatever cookie is sent |
| `Auth.WrongSchemeUsesCookie` | middleware/auth.js:10-19 | a header that is absent, empty or does not start with `Bearer` (such as `Basic abc`) lets a truthy `token` cookie be the token |
| `Auth.FailuresLookIdentical` | middleware/auth.js:22-45 | every error `protect` passes to `next` is the same 401 value with the same message; `req.user` is written exactly when the last call is `next()` with no error |
| `Auth.SuccessBindsUser` | middleware/auth.js:31-37 | `req.user` is written exactly when the verifier accepted the selected token and the lookup did not fail; it then holds the record found, or `null` for a missing record, after a `findById` of the decoded id and a final `next()` |
| `Auth.NextExactlyOnce` | middleware/auth.js:7-46 | every run ends in `next` or a throw; `next` is called exactly once unless `req.cookies` is undefined on the cookie branch, and then the one effect is the thrown `TypeError` |
| `Auth.Includes` | middleware/auth.js:51 | scanning the role list from the front finds the role exactly when it is a member of the list |
| `Auth.AuthorizeOutcome` | middleware/auth.js:49-60 | `next()` with no error exactly when `req.user` holds a record whose role is listed; otherwise `next` with the 403 error, which includes every user when the role list is empty; a `TypeError` when `req.user` is `undefined` or `null` |
| `Auth.Authorize` | middleware/auth.js:49-61 | the middleware makes exactly the one call `AuthorizeOutcome` gives and modifies nothing on the request |
| `Auth.GateSoundness` | middleware/auth.js:7-61 | a request passes `protect` and then `authorize(...roles)` exactly when the verifier accepted its token and the store found a record whose role is listed; a `null` identity never passes the role gate |
| `ClientIp.ResolvedIp` | middleware/trueIp.js:6-9 | the chosen value is `cf-connecting-ip` when that is truthy, else `x-forwarded-for` when that is truthy, else the remote address; it is truthy exactly when one of the three is |
| `ClientIp.CfIpAfter` | middleware/trueIp.js:6-10 | `req.cf_ip` becomes the first truthy choice in that order, and keeps its old value when all three are falsy |
| `ClientIp.TrueIp` | middleware/trueIp.js:5-12 | `req.cf_ip` is updated as `CfIpAfter` says, `req.user` and every other field are unchanged, and `next()` is called exactly once with no error |

## Left out

- The cryptography inside `jwt.verify` is not modelled: signatures, base64url decoding and reading the clock. All of it, including the `exp` check of RFC 7519 section 4.1.4, is folded into the verifier parameter.
- `User.findById` and MongoDB are not modelled. There is no I/O and no `await`. The lookup is a parameter with three outcomes.
- `asyncHandler` is not part of this model. An exception that would reach it is recorded as a `Raise` effect, and what it then passes to `next` is not modelled.
- `next()` is assumed not to throw. Express catches errors of later handlers itself, so the `catch` block never runs a second `next`.
- `Auth.Protect`: the decoded payload is modelled with a string `id` only. A payload without `id`, or a string payload, is not modelled.
- Header values are strings. Array-valued headers and non-string cookie values (such as JSON cookies) are not modelled.
- Request fields other than `user` and `cf_ip` are immutable in the model, so "nothing else changes" holds by construction and is not a separate contract.
- Verifying the same token twice giving the same identity holds by construction: the verifier and the store are functions of their arguments, and the model has no clock.
- `process.env.JWT_SECRET` is not read. The secret is an explicit parameter.
- `app.js` and `utils/geocoder.js` are wiring and configuration, and are not part of this model.
