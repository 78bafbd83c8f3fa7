# saplo4php JSON-RPC client, modelled in Dafny

This project models the core of `saplo4php-2.0.php`, the PHP client of the Saplo
text-analysis service. The service speaks JSON-RPC 2.0 over HTTPS POST. The model covers:

- the `SaploAPI` session: endpoint, access token, and the text of the last request;
- its constructor, which exchanges the key pair for a token through `auth.accessToken`;
- `doRequest`, which builds the JSON-RPC 2.0 request object and records its text;
- the URL that `post` sends to;
- `parseResponse` and `trim`, which turn the decoded reply into a value or a `SaploException`;
- `custom_request` and `getAccessToken`;
- the four namespaces `Account`, `Collection`, `Text` and `Group`: each method maps its name to
  an RPC method string, and `__call` routes the name `list` to `lst`.

Files:

- `php_values.dfy` (module `PhpValues`): decoded JSON values (`Json`), and the PHP rules
  the client relies on. These are reading `$a[$k]` (`Index`), `isset` (`IsSet`), `unset`,
  array-key coercion (`ArrayKey`), and turning a value into text (`StringOf`, `IntText`).
  A list element is addressed by the canonical decimal text of its position.
  `NatTextRoundTrip` and `ParseIndexCanonical` prove the two directions of that
  correspondence.
- `saplo.dfy` (module `Saplo`): the request envelope (`ForwardedParams`, `Envelope`), the
  `SaploApi` class and the namespace classes.

`SaploApi` is a class whose methods update its fields in place. Each method states the new
state. The ghost field `exchanges` records every POST as (URL, body, reply), so the
contracts can say what was sent, where, and what came back. The transport's reply is
arbitrary: no contract depends on what the server says. `json_encode` and `json_decode`
are given to the session as a `Codec` of two function values, and nothing is assumed about
them. PHP's `new SaploAPI(...)` either fails or yields a ready object. The static method
`SaploApi.Connect` models it: it returns `Failure(outcome)`, where the outcome is a thrown
`SaploException` or a `Crash`, or `Success(session)`. Its ghost out-parameter shows the
session's state in every case.

Behaviour stated as the code has it:

- A `trim` key that the result lacks yields null, not an error.
- A bootstrap reply without `access_token` leaves the token null, and the session is still
  returned.
- A reply with neither a set `result` nor a set `error` yields null.
- An error whose `msg` is an array, or whose `code` is an array or a string that does not
  begin with a number (such as `"E401"`), never becomes a `SaploException`: PHP's
  `Exception` constructor refuses it. The model's outcome is then `Crash`.
- The error's message is read from the member `msg`. Section 5.1 of JSON-RPC 2.0 names it
  `message`.
- `empty("0")` holds in PHP, so the endpoint `"0"` keeps the default endpoint.
- A `request_id` or `trim` key whose value is null is not set, so it is not removed. It is
  sent to the server as null.
- `Text.delete()` without an argument sends `params` 0. Section 4 of JSON-RPC 2.0 requires
  a structured value there, so `EnvelopeIsRpcRequest` requires map or list params.
- A set `request_id` is forwarded as the `id` whatever its type. Section 4 of JSON-RPC 2.0
  allows only a String, a Number or Null, so `EnvelopeIsRpcRequest` also requires a
  `request_id` that is unset, a string or a number.
- When `json_encode` fails it returns `false`. The session then keeps `false` as its last
  request text, and curl posts an empty body.
- `Group.add_text` and `Group.delete_text` call `parseResponse` without params, so they
  never trim.

## Model

| member | source | states |
|---|---|---|
| `PhpValues.NatText` | saplo4php-2.0.php:65 | the text of a non-negative integer, as PHP writes it in a concatenation: non-empty, digits only, with a leading `0` exactly when the number is 0 |
| `PhpValues.IntText` | saplo4php-2.0.php:65 | PHP's text of any integer: starts with `-` exactly for negative numbers; a non-negative number's text names that list position (used when a numeric token is written into the URL and when a numeric `trim` indexes a list) |
| `PhpValues.NatTextRoundTrip` | saplo4php-2.0.php:104 | the text of `n` reads back as list position `n` |
| `PhpValues.ParseIndexCanonical` | saplo4php-2.0.php:104 | a key that names list position `i` is exactly the text of `i`, so each element has exactly one key |
| `PhpValues.ParseIndex` | saplo4php-2.0.php:104 | PHP's integer-key rule: only a non-empty string of digits without a leading zero (other than "0" itself) names a list position; a key that starts with anything but a digit never does |
| `PhpValues.Index` | saplo4php-2.0.php:92-99 | a read yields something other than null only from a map or a list, and then one of its elements; on a map it yields the value stored under the key, and null when the key is absent |
| `PhpValues.IsSet` | saplo4php-2.0.php:40-47 | a set key belongs to a map or a list; on a map it is one of its keys |
| `PhpValues.Unset` | saplo4php-2.0.php:40-47 | after removal the key is no longer set in a map (or wherever it is not a list position); every other key reads as before; maps stay maps |
| `PhpValues.ArrayKey` | saplo4php-2.0.php:104 | arrays are not keys and every other value is; a string is its own key; a non-negative integer's key names that list position; a negative integer's key names no position |
| `PhpValues.StringOf` | saplo4php-2.0.php:65 | the text is empty exactly for null, `false` and the empty string; a non-negative integer's text names that list position |
| `PhpValues.SkipBlanks` | saplo4php-2.0.php:310 | the string with its leading blanks removed: a suffix of it, all of whose removed characters are blanks and whose first character is not one |
| `PhpValues.LeadingNumeric` | saplo4php-2.0.php:310 | PHP's test for a string that begins with a number: such a string holds a digit; a string that starts with a digit passes; the empty string fails |
| `PhpValues.ConvertsToInteger` | saplo4php-2.0.php:310 | PHP accepts null, booleans and numbers as an integer argument, refuses arrays and the empty string, and accepts a string only when it holds a digit |
| `PhpValues.ListKey` | saplo4php-2.0.php:104 | a key that reaches a list element names a position inside the list, is that position's text, and yields that element |
| `Saplo.Empty` | saplo4php-2.0.php:11 | a string is empty exactly when it has at most one character and every character is `0`, i.e. it is "" or "0" |
| `Saplo.Credentials` | saplo4php-2.0.php:13 | the bootstrap params are a map with exactly the keys `api_key` and `secret_key`, holding the two keys given, and no directive |
| `Saplo.ExceptionAccepts` | saplo4php-2.0.php:309-310 | the parent `Exception` constructor refuses an array message, and accepts a string code only when it holds a digit; a string or null message with a numeric or null code is accepted |
| `Saplo.ErrorCodeExamples` | saplo4php-2.0.php:308-310 | the error code `"E401"` is refused, `" 401"` and a missing code are accepted, and a map message is refused |
| `Saplo.RequestId` | saplo4php-2.0.php:40-44 | the `id` is never null: the caller's `request_id` when set, 0 otherwise |
| `Saplo.Envelope` | saplo4php-2.0.php:49-52 | the request has exactly the members `method`, `params`, `id` and `jsonrpc`; `jsonrpc` is "2.0", `method` the given name, and the params carry no set directive |
| `Saplo.Encoded` | saplo4php-2.0.php:55-56 | the encoding is a string exactly when `json_encode` succeeds, and `false` otherwise; as a body, `false` is the empty text and a string is itself |
| `Saplo.PostUrl` | saplo4php-2.0.php:65 | the URL is the endpoint, then `?access_token=`, then the token's text, and nothing else; with no token it ends in `?access_token=` |
| `Saplo.ForwardedParams` | saplo4php-2.0.php:41-48 | the forwarded params have no set `request_id` or `trim`; they keep exactly the other keys, each with its value unchanged; null-valued directive keys stay; non-map params are forwarded unchanged |
| `Saplo.EnvelopeIsRpcRequest` | saplo4php-2.0.php:40-52 | for map or list params whose `request_id` is unset, a string or a number, the envelope is a JSON-RPC 2.0 request: exactly `method`, `params`, `id` and `jsonrpc`; `jsonrpc` is "2.0"; `method` is the given name; `params` are the forwarded params, structured; `id` is a String, Number or Null |
| `Saplo.EnvelopeId` | saplo4php-2.0.php:41-45 | the envelope `id` is the caller's `request_id` when set, and 0 otherwise |
| `Saplo.BootstrapEnvelope` | saplo4php-2.0.php:13-14 | the bootstrap request is `auth.accessToken` with exactly `{api_key, secret_key}` as params and id 0 |
| `Saplo.SaploApi.Init` | saplo4php-2.0.php:6-12 | the endpoint is the default unless the argument is non-empty in PHP's sense; no token and no request text yet; nothing sent |
| `Saplo.SaploApi.Connect` | saplo4php-2.0.php:10-26 | the session uses the given codec; exactly one POST: the encoding of the bootstrap envelope (or `false`, posted as an empty body) is the last request text and the body, sent to `endpoint?access_token=` with an empty token; if the reply throws or crashes, the caller gets only that outcome and the token stays null; otherwise the caller gets the session, with the token set to the result's `access_token` and four fresh namespaces bound to it |
| `Saplo.SaploApi.BindNamespaces` | saplo4php-2.0.php:15-18 | each of the four namespace fields holds a fresh namespace bound to this session; nothing else in the session changes |
| `Saplo.SaploApi.ThrownCarriesSentRequest` | saplo4php-2.0.php:99 | an exception thrown by a namespace call carries the session's last request text, the encoding of the call's envelope or `false`, and that text is exactly the body that was posted |
| `Saplo.SaploApi.AccessToken` | saplo4php-2.0.php:21-26 | sends `auth.accessToken`; on return the token becomes the result's `access_token`; on a throw or a crash the token is unchanged |
| `Saplo.SaploApi.CustomRequest` | saplo4php-2.0.php:34-36 | the caller's text is posted as is to the current URL, and the reply comes back uninterpreted |
| `Saplo.SaploApi.DoRequest` | saplo4php-2.0.php:39-61 | the envelope built by stripping a copy step by step equals `Envelope(name, params)`; its encoding (or `false` when `json_encode` fails) becomes the last request text, whose text is the body of the one POST made; endpoint and token are unchanged |
| `Saplo.SaploApi.Post` | saplo4php-2.0.php:63-65 | exactly one exchange is appended: URL `endpoint + "?access_token=" + token`, the given body, and the reply returned |
| `Saplo.SaploApi.ParseResponse` | saplo4php-2.0.php:89-101 | fails to return exactly when `result` is not set and `error` is; it then crashes exactly when `Exception` refuses the error's `msg` or `code`, and otherwise throws; the exception carries `error.msg`, `error.code` and the last request text; a set `result` is returned, trimmed when the params carry a set `trim`; anything other than null is returned only when `result` is set |
| `Saplo.SaploApi.Decode` | saplo4php-2.0.php:90 | a failed transfer reads as null; a reply is read by `json_decode` |
| `Saplo.SaploApi.Trim` | saplo4php-2.0.php:103-105 | a string names a member of a map result (null when absent); an integer names a position of a list result, and one outside the list yields null; an array key or a non-array result yields null; any element taken from a list is the one at the position the key names, and the key is exactly that position's text |
| `Saplo.SaploApi.GetAccessToken` | saplo4php-2.0.php:115-117 | returns the current token |
| `Saplo.Account.constructor` | saplo4php-2.0.php:128-130 | the namespace is bound to the given session |
| `Saplo.Account.Get` | saplo4php-2.0.php:132-135 | sends `account.get` with the params (default: empty array); the reply is interpreted with the same params, so `trim` applies |
| `Saplo.Collection.constructor` | saplo4php-2.0.php:140-142 | the namespace is bound to the given session |
| `Saplo.Collection.Create` | saplo4php-2.0.php:144-147 | sends `collection.create`; the reply is interpreted with the same params |
| `Saplo.Collection.Get` | saplo4php-2.0.php:149-152 | sends `collection.get`; the reply is interpreted with the same params |
| `Saplo.Collection.Update` | saplo4php-2.0.php:154-157 | sends `collection.update`; the reply is interpreted with the same params |
| `Saplo.Collection.Delete` | saplo4php-2.0.php:159-162 | sends `collection.delete`; the reply is interpreted with the same params |
| `Saplo.Collection.Lst` | saplo4php-2.0.php:164-168 | sends `collection.list` (default params: empty array); the reply is interpreted with the same params |
| `Saplo.Collection.Reset` | saplo4php-2.0.php:170-173 | sends `collection.reset`; the reply is interpreted with the same params |
| `Saplo.Collection.Call` | saplo4php-2.0.php:175-184 | `list` sends `collection.list` with the first argument, or an empty array when it is missing or null; the extra arguments are ignored; any other name returns null and changes nothing |
| `Saplo.Text.constructor` | saplo4php-2.0.php:190-192 | the namespace is bound to the given session |
| `Saplo.Text.Create` | saplo4php-2.0.php:194-197 | sends `text.create`; the reply is interpreted with the same params |
| `Saplo.Text.Update` | saplo4php-2.0.php:199-202 | sends `text.update`; the reply is interpreted with the same params |
| `Saplo.Text.Get` | saplo4php-2.0.php:204-207 | sends `text.get`; the reply is interpreted with the same params |
| `Saplo.Text.Delete` | saplo4php-2.0.php:209-212 | sends `text.delete` (default params: the integer 0); the reply is interpreted with the same params |
| `Saplo.Text.Tags` | saplo4php-2.0.php:214-217 | sends `text.tags`; the reply is interpreted with the same params |
| `Saplo.Text.RelatedTexts` | saplo4php-2.0.php:219-222 | sends `text.relatedTexts`; the reply is interpreted with the same params |
| `Saplo.Text.RelatedGroups` | saplo4php-2.0.php:224-227 | sends `text.relatedGroups`; the reply is interpreted with the same params |
| `Saplo.Group.constructor` | saplo4php-2.0.php:232-234 | the namespace is bound to the given session |
| `Saplo.Group.Create` | saplo4php-2.0.php:236-239 | sends `group.create`; the reply is interpreted with the same params |
| `Saplo.Group.Get` | saplo4php-2.0.php:241-244 | sends `group.get`; the reply is interpreted with the same params |
| `Saplo.Group.Update` | saplo4php-2.0.php:246-249 | sends `group.update`; the reply is interpreted with the same params |
| `Saplo.Group.Reset` | saplo4php-2.0.php:251-254 | sends `group.reset`; the reply is interpreted with the same params |
| `Saplo.Group.Delete` | saplo4php-2.0.php:256-259 | sends `group.delete`; the reply is interpreted with the same params |
| `Saplo.Group.Lst` | saplo4php-2.0.php:261-265 | sends `group.list` (default params: empty array); the reply is interpreted with the same params |
| `Saplo.Group.AddText` | saplo4php-2.0.php:267-270 | sends `group.addText`; the reply is interpreted without params, so a set `result` comes back whole |
| `Saplo.Group.DeleteText` | saplo4php-2.0.php:272-275 | sends `group.deleteText`; the reply is interpreted without params, so a set `result` comes back whole |
| `Saplo.Group.ListTexts` | saplo4php-2.0.php:277-280 | sends `group.listTexts`; the reply is interpreted with the same params |
| `Saplo.Group.RelatedTexts` | saplo4php-2.0.php:282-285 | sends `group.relatedTexts`; the reply is interpreted with the same params |
| `Saplo.Group.RelatedGroups` | saplo4php-2.0.php:287-290 | sends `group.relatedGroups`; the reply is interpreted with the same params |
| `Saplo.Group.Call` | saplo4php-2.0.php:292-301 | `list` sends `group.list` with the first argument, or an empty array when it is missing or null; the extra arguments are ignored; any other name returns null and changes nothing |

## Left out

- The curl transfer in `post` (saplo4php-2.0.php:67-86) is left out: connection handling, TLS version, and the declared POST length. A reply is any text, or none when curl fails. Only the URL and the body are modelled.
- `json_encode` and `json_decode` are parameters of the session. The model does not capture their text format, the order of keys in a PHP array, or the encoding of an empty array as `[]`.
- Numbers are integers; JSON floating-point numbers are not modelled.
- PHP arrays are split into lists (`Arr`) and string-keyed maps (`Obj`). `unset` is modelled only for the non-numeric keys that this client removes.
- Reading an offset of a string value (`"abc"['k']`) is modelled as null. PHP's version-dependent string-offset rules are not modelled.
- `SaploException` keeps `msg` and `code` as decoded values. The conversion PHP's `Exception` constructor applies to an accepted message or code is not modelled. When it refuses them (an array `msg`, or a `code` that is an array or a string not beginning with a number), the model ends the call with `Crash`, for the fatal error of PHP 5 or the thrown `Error` of PHP 7.
- `Saplo.ExceptionAccepts`: a code too large for a PHP integer is refused by PHP 7 and accepted by PHP 5. The model accepts every number, because it has no integer width.
- The debug echo and the static `$debug` flag (saplo4php-2.0.php:5, 57, 91, 119-122, 312) are left out. They only print.
- The private `setEndpoint` and `getEndpoint` (saplo4php-2.0.php:107-113) are left out. Nothing calls them.
- `Saplo.Group.AddText` and `Saplo.Group.DeleteText` follow PHP 5, where the missing `parseResponse` argument is null. PHP 7.1 and later raise `ArgumentCountError` there instead, after the request was sent.
- Under PHP 5 a namespace method called without its required argument receives null, with a warning, and still sends the request. The model expresses that call by passing `Null`. PHP 7.1 and later raise `ArgumentCountError` before anything is sent.
- `Account` and `Text` have no `list` method and no `__call`. Calling `list` on them is a fatal error in PHP 5 and a thrown `Error` from PHP 7 on. Neither is modelled.
- PHP strings are byte strings. The model uses Dafny character strings, so text that is not valid UTF-8, which makes `json_encode` fail, can only be represented by a codec that returns None.
- `Saplo.EnvelopeIsRpcRequest`: a `request_id` that is an array or a boolean is forwarded as an `id` that section 4 of JSON-RPC 2.0 does not allow, so the lemma requires `request_id` to be unset, a string or a number.
- There is no concurrency in the client.
