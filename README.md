# Error-handling middleware, modelled in Dafny

The API's centralized Express error handler (`ErrorHandlerMiddleware`) turns any error
raised by a route into an HTTP response. It starts from the error's own `statusCode`
(500 when absent or zero) and `message` ("Internal Server Error" when absent or empty).
Then four independent checks run in a fixed order, each overwriting the status and
message chosen so far:

1. `TokenExpiredError` gives 401 and "Token expired, please login again".
2. `ValidationError` gives 400, with the detail messages joined by commas when `details` is present.
3. database error code 11000 gives 400 and a duplicate-key message naming the first key of `keyValue`.
4. `CastError` gives 404 and "No item found with id: " followed by `value`.

The response body is `{success: false, status, message, stack}`. `stack` is the error's
stack trace in development mode and an empty object otherwise.

Files:

- `wrappers.dfy`: `Option`, for the error's optional fields.
- `comma_join.dfy`: `Join` models `Array.prototype.join(",")` on strings. `Split` cuts a
  string at every comma. It undoes `Join` on non-empty comma-free lists, and `Join` undoes
  it on every string. It is not in the source; it is used to state what the joined
  message keeps.
- `error_handler.dfy`: the `CustomError` shape, `Classify` (status and message) and
  `Respond` (the status sent and the JSON body).

`Classify`'s body follows the handler's statements one by one. Its contract states the
resolved outcome:

- a cast error wins over everything;
- a duplicate key wins over the name-based rules;
- when no rule applies, the defaults stand.

The code is followed where a plain reading of the handler might suggest otherwise. A
`TokenExpiredError` or `ValidationError` that also carries code 11000 gets the
duplicate-key message, because that check comes later. A `ValidationError` without
`details` keeps the default message but still gets status 400.

## Model

| member | source | states |
|---|---|---|
| `ErrorHandler.Classify` | src/api/middlewares/ErrorHandler.ts:21-46 | With no override rule, the result is exactly (`statusCode` or 500, `message` or "Internal Server Error"); with both absent it is (500, "Internal Server Error"). A TokenExpiredError without code 11000 gets (401, "Token expired, please login again") whatever its status and message. A ValidationError always gets 400. Without code 11000, its message is the comma-join of its detail messages when `details` is present (empty string for an empty list) and the default otherwise. Code 11000 on a non-CastError gives (400, duplicate message for the first key). A CastError always gives (404, "No item found with id: " + value), even with code 11000. The status is always one of `statusCode`, 500, 400, 401, 404 and never 0; when a rule fires it is 400, 401 or 404 |
| `ErrorHandler.Respond` | src/api/middlewares/ErrorHandler.ts:48-53 | The body never reports success. The status sent equals the body's `status`. Status and message are the classifier's verdict. The stack trace is included in development and replaced by an empty object otherwise |
| `ErrorHandler.StackHiddenOutsideDevelopment` | src/api/middlewares/ErrorHandler.ts:52 | Outside development, two errors that differ only in their stack trace get identical responses |
| `ErrorHandler.ValidationMessagesRecoverable` | src/api/middlewares/ErrorHandler.ts:29-35 | For a ValidationError without code 11000 that has at least one detail, none containing a comma, splitting the message at commas gives back exactly the detail messages in order |
| `ErrorHandler.ValidationDetailsExample` | src/api/middlewares/ErrorHandler.ts:29-35 | Details "a" and "b" give (400, "a,b") |
| `ErrorHandler.DuplicateKeyExample` | src/api/middlewares/ErrorHandler.ts:37-41 | Code 11000 with `keyValue` `{email: ...}` gives 400 and a message naming the field "email" |
| `ErrorHandler.MissingValuesRenderAsUndefined` | src/api/middlewares/ErrorHandler.ts:37-46 | An empty `keyValue` puts the text "undefined" in the duplicate-key message; a CastError without `value` reports the id "undefined" |
| `ErrorHandler.CastErrorExample` | src/api/middlewares/ErrorHandler.ts:37-46 | A CastError with value "abc123" gets (404, "No item found with id: abc123") even with code 11000 and a status of its own |
| `CommaJoin.Join` | src/api/middlewares/ErrorHandler.ts:30-32 | Joining no strings gives the empty string. Otherwise the result is as long as all parts together plus one comma between each pair of neighbours, and it starts with the first part |
| `CommaJoin.Split` | src/api/middlewares/ErrorHandler.ts:30-32 | Splitting at commas gives comma-free pieces, one more piece than the string has commas, and the pieces' total length is the string's length less its commas |
| `CommaJoin.SplitJoin` | src/api/middlewares/ErrorHandler.ts:30-32 | Splitting a joined list gives back the list, when it is non-empty and no part contains a comma |
| `CommaJoin.JoinSplit` | src/api/middlewares/ErrorHandler.ts:30-32 | Joining the pieces of any split string gives back that string |
| `CommaJoin.JoinNotInjective` | src/api/middlewares/ErrorHandler.ts:30-32 | The join loses boundaries: ["a,b"] and ["a","b"] give the same message, and so do an empty details list and one empty message |

## Left out

- The Express plumbing is not modelled: `req`, `next`, and the `res.status(...).json(...)` call. The model returns the status and body the handler would send.
- The `process.env.NODE_ENV` read is replaced by the `isDevelopment` parameter.
- The stack trace is an opaque string. An error without a stack, whose `stack` key JSON would omit, is not modelled.
- An error with code 11000 and no `keyValue` (undefined or null) makes `Object.keys` throw a TypeError, and the handler then sends no response of its own. The model always has a key list, possibly empty, so this crash path is not modelled.
- Fields are typed as in `CustomError`. JavaScript truthiness of other values, such as a NaN or string `statusCode` or a non-string message, is not modelled. 0 and "" are the falsy cases.
- `keyValue` is modelled only by its keys, in `Object.keys` order; the values never reach the response. The JavaScript rule that integer-like keys come first in that order is not modelled.
- How Express itself reacts to a status outside the valid HTTP range is not modelled.
