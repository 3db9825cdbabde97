# Carbon points redemption service: a Dafny model of its ledger logic

The service answers `POST /redeem` requests from a storefront and keeps
each customer's loyalty balance in the commerce platform's customer
metadata: a metafield in namespace `carbon` with key `points`, whose value
is the balance as decimal text. This project models the logic in
`server.js` around that balance:

- the static redemption-code table (`CARBON50` is worth 50 points);
- the balance lookup, which scans a customer's metafields for the first
  `carbon`/`points` entry and reads it with `parseInt(value) || 0`;
- the credit, which reads the balance, adds a delta and posts the sum back
  as an absolute value;
- the two `POST /redeem` handler bodies, each as a function from the
  request's `code` and `customerId` fields to the response.

The remote platform is an in-memory store (`PointsLedger.RemoteCustomerStore`).
`records` holds what a metafield read returns for each customer. A customer
missing from it reads as a response with no `metafields` list.
`readOutcome` and `writeOutcome` give the HTTP status the store answers
with, or say that the call gets no response. `writes` logs every write
call in order. A read is ok when its status is in 200-299, as `response.ok`
is.

Modules:

- `Wrappers`: `Option` for `null` returns, `Result` for thrown errors.
- `JsNumbers`: the decimal core of `parseInt` and `Number.prototype.toString`.
- `PointsLedger`: metafields, the first-match scan, the store, and the
  `GetCustomerPoints` / `UpdateCustomerPoints` client methods.
- `Redeem`: JSON field values with JavaScript truthiness, the code table,
  and the two handlers.

Behaviour of the code worth knowing:

- The balance read raises an error when the read fails, and that error
  reaches the caller. A failed read never turns into a balance of 0.
- The balance read can return a negative number: a stored `-5` reads
  as -5.
- Neither `/redeem` handler credits points. The second one still answers
  "added 50 points". `UpdateCustomerPoints` is defined but has no caller.
  Neither handler function takes the store as an argument, so no handler
  path can change a balance or issue a write.
- There is no discount issuance and no spend workflow in the code, so the
  model has neither.

## Model

| member | source | states |
|---|---|---|
| `Redeem.ValidateRedemptionCode` | server.js:31-36 | the table yields a value exactly for `CARBON50`; that value is 50, and every other string gives `null` |
| `Redeem.RedeemFirst` | server.js:8-15 | 400 with the missing-code-or-customer message exactly when `code` or `customerId` is falsy; otherwise 200 with the plain success message |
| `Redeem.RedeemSecond` | server.js:95-107 | 400 exactly when a field is falsy or the code is not the string `CARBON50`; the missing-field message takes priority, then "invalid code"; a success is 200 naming 50 points |
| `Redeem.InlineCheckAgreesWithValidator` | server.js:101-104 | the inline `code === 'CARBON50' ? 50 : 0` gives 50 exactly when the table gives 50, and 0 exactly when the table gives `null`; it gives 0 for any code that is not a string |
| `Redeem.RedeemSecondMatchesValidator` | server.js:95-107 | the second handler succeeds exactly when the customer id is truthy and the code is a string the table knows; its message names the table's value |
| `Redeem.HandlersCompared` | server.js:8-107 | both handlers answer the same 400 when a field is missing; a success of the second handler implies a success of the first; their statuses differ exactly when the second answers "invalid code" |
| `Redeem.Truthy` | server.js:10 | the test behind `!code` and `!customerId` (also at line 97): a field is falsy exactly when it is `undefined`, `null`, `false`, `0` or the empty string |
| `Redeem.InlinePointsValue` | server.js:101 | the inline check gives 50 exactly for the string `CARBON50` and 0 for everything else |
| `JsNumbers.LeadingDigits` | server.js:53 | the longest all-digit prefix of the text, so the parse stops at the first non-digit |
| `JsNumbers.ParseInt` | server.js:53 | `NaN` exactly when no digit follows the optional sign; a negative result only with a leading `-` |
| `JsNumbers.ParseIntOrZero` | server.js:53 | `parseInt(...) \|\| 0` is 0 exactly when `parseInt` gives `NaN` or 0; any other number `parseInt` gives is returned unchanged |
| `JsNumbers.ParseIntOfUnsignedRun` | server.js:53 | `parseInt` of a run of digits (leading zeros allowed) followed by non-digit text is the run's decimal value |
| `JsNumbers.ParseIntOfSignedRun` | server.js:53 | `parseInt` of `+` or `-`, a run of digits, then non-digit text is the run's value, negated after `-` |
| `JsNumbers.ParseIntOrZeroOfSignedRun` | server.js:53 | the balance read from any stored text made of an optional sign, digits and non-digit text is the signed value of the digits, e.g. `050` gives 50, `+12` gives 12, `12abc` gives 12 |
| `JsNumbers.NatToString` | server.js:73 | the digits `toString` writes for a non-negative number are canonical: `0` alone for zero, otherwise no leading zero |
| `JsNumbers.IntToString` | server.js:73 | the decimal text is non-empty and starts with `-` exactly for a negative number |
| `JsNumbers.NatToStringValue` | server.js:73 | the digits `toString` writes for a non-negative number have that number as their value |
| `JsNumbers.LeadingDigitsOfDigitsThenOther` | server.js:53 | `parseInt` reads a run of digits up to the first non-digit that follows it |
| `JsNumbers.ParseIntOrZeroOfIntToString` | server.js:53-73 | reading back a written balance gives the same integer, for every integer, even with trailing non-digit text |
| `PointsLedger.PointsIn` | server.js:50-56 | the balance of a metafield list is 0 when no entry is `carbon`/`points`, and otherwise the first such entry's value through `parseInt(...) \|\| 0` |
| `PointsLedger.PointsEntry` | server.js:69-76 | the posted entry is a `carbon`/`points` entry whose text reads back as the new balance |
| `PointsLedger.FirstPointsIndex` | server.js:51-55 | the scan finds the first `carbon`/`points` entry; every earlier entry is not one; none is found exactly when no entry matches |
| `PointsLedger.FirstEntryDecides` | server.js:51-55 | the balance is the first matching entry's parsed value; entries after it, matching or not, do not change it |
| `PointsLedger.PointsZeroCases` | server.js:50-56 | the lookup gives 0 exactly when no entry matches (an empty or missing list included) or the first match parses to `NaN` or 0 |
| `PointsLedger.ReadBackAfterWrite` | server.js:69-76 | if the platform keeps the posted entry as the first points entry, the next lookup returns exactly the posted balance |
| `PointsLedger.ScanPoints` | server.js:51-56 | the `for...of` loop stops at the first `carbon`/`points` entry and returns its value through `parseInt(...) \|\| 0`, or returns 0 after the last entry; the result is the balance `PointsIn` describes |
| `PointsLedger.GetCustomerPoints` | server.js:39-61 | a non-ok or failed read raises and the error is passed on; an ok read returns the first matching entry's parsed value, or 0 when there is none or the list is missing |
| `PointsLedger.UpdateCustomerPoints` | server.js:64-92 | a failed read raises before any write call; otherwise exactly one write call posts `carbon`/`points`/`integer` with value `toString(balance + points)`, which parses back to `balance + points`; a non-ok write raises after the post; a failed read leaves the records as they were; after a write call every other customer's records are unchanged, and the customer's own records are left open |

## Left out

- Express, CORS, body parsing and `app.listen` (server.js:1-6, 17, 20-21, 109-111) are framework plumbing. `port` is never declared, so evaluating it at server.js:109 throws an uncaught `ReferenceError` at module top level. The process then exits at startup.
- Which of the two `/redeem` registrations answers a request depends on Express's route dispatch. The model gives each handler on its own.
- Environment configuration and the base URL with embedded credentials (server.js:24-28) are inert configuration.
- HTTP headers, URLs, JSON (de)serialisation and a read body that is not valid JSON belong to the foreign network API. Reads and writes are abstract calls that end with a status or with no response.
- The status number inside an error's message text, and all console logging (server.js:42, 58, 89), are I/O.
- How the platform merges a posted metafield into the customer's existing ones is not modelled. After a write call, the contract of `UpdateCustomerPoints` leaves that customer's entry in `records` unconstrained; it promises only that every other customer's entry is untouched. `ReadBackAfterWrite` states what a later read returns under an explicit assumption about the merge.
- The lost update between concurrent read-add-write credits for one customer is concurrency. The code has no locking to model.
- `ValidateRedemptionCode`: takes the code as a string. JavaScript's property-key coercion of other values is not modelled (an array `['CARBON50']` would also be worth 50). Inherited keys such as `constructor` are not modelled either.
- `ParseInt`: leading whitespace, radix prefixes and the rest of JavaScript's `parseInt` grammar are not modelled. Only an optional sign followed by decimal digits is. The value is an exact integer. JavaScript rounds it to a double, so a stored `12345678901234567891` reads as 12345678901234567000 there but exactly in the model.
- `UpdateCustomerPoints`: balances and deltas are unbounded integers. Double-precision rounding above 2^53, exponent notation from `toString` at 1e21 and above, and string concatenation when the delta is not a number are not modelled.
- `Redeem.JsValue`: numbers in a request body are exact reals, because JSON has no `NaN`.
- Discount issuance, price rules, catalog-based code validation and point spending do not exist in the code and are not modelled.
