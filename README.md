# Cargo selection webhook — a Dafny model

`webhook.php` receives a shipment description (cargo type, weight, declared
value, Telegram user, client metadata) as a JSON POST from a Telegram Web App,
normalises it into a fixed-shape payload for an n8n workflow, enriches it with
a shipping category, an estimated cost range and a validation report, forwards
it with one HTTP POST, and tells the caller whether the forward worked.

The model follows the script's structure:

| module | file | models |
|---|---|---|
| `Php` | `php.dfy` | the PHP behaviour the script relies on: `??` as `Option.GetOr`, `empty()` on strings, truthiness of a decoded JSON value, `round()` (halves away from zero), `strpos(...) !== false`, and the decimal rendering of an integer in `"HTTP $code"` |
| `Submission` | `submission.dfy` | the decoded request body: the keys the script reads, typed, each present or absent; whether the body is falsy (`!$data`); the ambient values (clock, `$_SERVER`, `uniqid`) |
| `Categoriser` | `categoriser.dfy` | `calculateShippingCategory` |
| `CostEstimator` | `cost_estimator.dfy` | `estimateShippingCost`, as a method that scales the base cost in place and the function it is proved equal to |
| `Validator` | `validator.dfy` | `validateCargoData`, as a method with the script's early-exit loop over the checks and the function it is proved equal to |
| `Normaliser` | `normaliser.dfy` | `prepareN8NPayload`: defaults for every field, the derived fields, the user pass-through and the metadata block |
| `Forwarder` | `forwarder.dfy` | the classification at the end of `sendToN8N` of what the transfer reported |
| `Configuration` | `configuration.dfy` | the destination URL and the check that it has been configured |
| `RequestHandler` | `request_handler.dfy` | the top level: method gating, rejection of a falsy body, the destination check, forwarding and the reply |

Each method is proved equal to a function (`EstimateShippingCost` to
`CostRange`, `ValidateCargoData` to `Validation`, `PrepareN8NPayload` to
`N8NPayload`). The lemmas state what those functions guarantee: the category
is the larger of a weight tier and a value tier, and it is monotone; the cost
range is ordered and grows with risk; validation reports each check exactly;
normalisation keeps submitted values, defaults missing ones and is
idempotent; the error text of an HTTP failure gives back its status. The
upper end of the cost range is rounded from the unrounded total × 1.3, not
from the rounded lower end (`CostEstimator.MaxNotFromRoundedMin`).

## Model

| member | source | states |
|---|---|---|
| `Php.Round` | webhook.php:176-177 | the result is the integer nearest its argument, with halves rounded away from zero, for both signs |
| `Php.RoundMonotone` | webhook.php:176-177 | rounding never reverses the order of two amounts |
| `Php.IsEmptyString` | webhook.php:48 | `empty()` on a string holds for the empty string, for a one-character string exactly when it is "0", and never for a longer string |
| `Php.Truthy` | webhook.php:35 | a decoded value converts to true exactly when it is none of null, false, 0, "", "0", `[]` and `{}` |
| `Php.Contains` | webhook.php:48 | `strpos(...) !== false` holds exactly when the haystack splits as some text, the needle, then some text; a found needle's first character occurs in the haystack |
| `Php.NatToDecimal` | webhook.php:255 | the interpolated status is a non-empty string of decimal digits with no leading zero, one digit exactly for statuses below 10 |
| `Php.DecimalRoundTrip` | webhook.php:255 | reading the decimal text of a status back gives that status |
| `Php.FirstCharAbsent` | webhook.php:48 | a string that lacks the first character of a marker does not contain the marker |
| `Submission.Falsy` | webhook.php:35-39 | an object is rejected exactly when it has no keys at all, any other decoded value exactly when it is one of PHP's falsy values; a rejected body carries no key the script reads |
| `Submission.FalsyBodies` | webhook.php:35-39 | `{}`, null, false, 0, "0" and `[]` are rejected as invalid input; an object with any key (even one holding null), "0.0" and `[null]` are not |
| `Categoriser.ShippingCategory` | webhook.php:148-154 | a cargo is a small parcel exactly when it is at most 1 kg and at most 1,000,000 in value, and needs special handling exactly when it exceeds 30 kg or 100,000,000 |
| `Categoriser.Tier` | webhook.php:148-154 | the tier of an amount is the index of the first limit it does not exceed |
| `Categoriser.CategoryIsLargerTier` | webhook.php:148-154 | the cascade's bucket is the larger of the weight's tier and the value's tier, each judged on its own |
| `Categoriser.TierMonotone` | webhook.php:148-154 | a larger amount never has a smaller tier |
| `Categoriser.CategoryMonotone` | webhook.php:148-154 | a heavier or more valuable cargo never lands in a smaller bucket |
| `Categoriser.CategoryBoundaries` | webhook.php:149-153 | each pair of limits (1 kg/1,000,000, 5 kg/5,000,000, 15 kg/20,000,000, 30 kg/100,000,000) belongs to its own bucket; value alone can move a light cargo up; anything over 30 kg needs special handling |
| `CostEstimator.CostRange` | webhook.php:159-180 | the estimate is always quoted in IRR |
| `CostEstimator.EstimateShippingCost` | webhook.php:159-180 | the step-wise computation (base cost, in-place risk premium, insurance premium, spread, rounding) equals `CostRange` |
| `CostEstimator.RangeOrdered` | webhook.php:172-177 | for a non-negative weight and value, 0 <= min <= max |
| `CostEstimator.RangeWithinHalfUnit` | webhook.php:172-177 | for every weight, value and risk, min is within half a unit of the exact total and max within half a unit of 1.3 times it; a half rounds up for a non-negative amount and down for a negative one |
| `CostEstimator.UnrecognisedRiskChargedAsLow` | webhook.php:163-167 | every risk string other than exactly "high" or "medium", "High" included, is priced as "low" |
| `CostEstimator.RiskPremiums` | webhook.php:160-172 | "high" adds 2,500 per kg and "medium" adds 1,000 per kg over "low"; insurance adds a thousandth of the value whatever the risk |
| `CostEstimator.RiskOrdersCost` | webhook.php:163-177 | for a non-negative weight, low <= medium <= high at both ends of the range |
| `CostEstimator.WorkedQuotes` | webhook.php:160-177 | 2 kg low risk at value 0 costs 10,000 to 13,000 IRR; 2 kg high risk at 1,000,000 costs 16,000 to 20,800 IRR |
| `CostEstimator.MaxNotFromRoundedMin` | webhook.php:172-177 | max is rounded from the unrounded total: an exact cost of 0.4 is quoted 0 to 1, not 0 to round(0 × 1.3) = 0 |
| `Validator.Validation` | webhook.php:185-192 | each check holds exactly when its key is present with an accepted value (0 < kg <= 30, amount > 0, id not "" or "0", currency IRR, USD or EUR), and `all_valid` exactly when all four hold |
| `Validator.ValidateCargoData` | webhook.php:185-203 | the loop that clears `all_valid` on the first failing check and stops yields exactly `Validation` |
| `Validator.ValidationExamples` | webhook.php:185-192 | a missing `cargo_info` fails every check; a passing record fails when its weight is 0, its type id is "0" or its currency is dropped |
| `Normaliser.CargoDetailsOf` | webhook.php:98-122 | the details are consistent (category and cost computed from the reported weight, value and risk) and flag special handling exactly when the submitted risk level is "high" |
| `Normaliser.N8NPayload` | webhook.php:87-142 | the event type and timestamps are fixed; `cargo_details` is present exactly when `cargo_info` was set, `user` exactly when `telegram_user` was set and non-null, passed through unchanged; with no `cargo_info` validation is all false |
| `Normaliser.MetadataOf` | webhook.php:131-140 | a value sent by the web app (IP address, and each `metadata` key) wins over anything else; a server name the server reports is used; `processed_at` is the request time; `data_validation` is the validation of `cargo_info`, or of an empty record when there is none |
| `Normaliser.HasUser` | webhook.php:126 | `isset` on `telegram_user` holds exactly when the key, read with `?? null`, is not null |
| `Normaliser.PrepareN8NPayload` | webhook.php:87-143 | building the payload field by field, with the estimator and validator methods, yields exactly `N8NPayload` |
| `Normaliser.FieldsDefaultOrPassThrough` | webhook.php:99-113 | every `cargo_details` field is the submitted value when present and its own default ("unknown", "", "medium", 0, "0 kg", "0", false) otherwise |
| `Normaliser.EmptyCargoInfoDefaults` | webhook.php:98-122 | an empty `cargo_info` gives the default details: small parcel, zero cost, no special handling |
| `Normaliser.NormaliseEmbedRoundTrip` | webhook.php:98-122 | normalising a fully specified record returns exactly its fields, for every consistent set of details |
| `Normaliser.NormaliseIdempotent` | webhook.php:98-122 | normalising already-normalised details changes nothing |
| `Normaliser.DerivedFieldsShareInputs` | webhook.php:114-122 | category and cost use the same defaulted weight and value as the payload reports; with no risk level the cost carries the "medium" premium yet special handling is not flagged |
| `Normaliser.PayloadDefaults` | webhook.php:88-140 | every top-level and metadata field key by key: the submitted value when present, else the server's `REMOTE_ADDR`/`HTTP_USER_AGENT`/`SERVER_NAME` where the script consults one, else its default ("telegram_web_app" or "unknown"); a `metadata` object lacking one key defaults that key alone; `processed_at` is the request time; validation runs on `cargo_info` or on an empty record |
| `Forwarder.ClassifyDelivery` | webhook.php:240-257 | a delivery exactly when there is no transport error and the status is 2xx or 3xx; a transport error wins and carries no body; an HTTP failure carries the body and an error text that names its status; a delivery's response is the decoded body when truthy, else the raw text |
| `Forwarder.HttpErrorText` | webhook.php:255 | the error text is "HTTP " and the status with no leading zero, and reads back as exactly that status |
| `Forwarder.AcceptedBoundaries` | webhook.php:240-250 | statuses 200 and 399 are deliveries; a transport error overrides a 200 |
| `Forwarder.RejectedBoundaries` | webhook.php:245-257 | statuses 199 and 400 are HTTP failures, the latter reported as "HTTP 400" with the body |
| `Forwarder.ServerErrorReported` | webhook.php:245-257 | status 500 is an HTTP failure reported as "HTTP 500" with the body |
| `Configuration.IsConfigured` | webhook.php:48 | the destination counts as configured exactly when it is neither "" nor "0" and does not split around the placeholder marker "your-n8n-domain" |
| `Configuration.ConfiguredWithoutMarkerLetter` | webhook.php:48 | a non-empty URL, other than "0", that lacks the placeholder's first letter counts as configured |
| `Configuration.NoMarkerLetterInShippedUrl` | webhook.php:45 | the shipped URL does not contain that letter |
| `Configuration.ShippedUrlIsConfigured` | webhook.php:45-48 | the shipped URL passes the configuration check |
| `Configuration.PlaceholderIsNotConfigured` | webhook.php:48 | "", "0" and a URL on the placeholder domain fail the configuration check |
| `RequestHandler.HandleRequest` | webhook.php:17-82 | OPTIONS gets the preflight, any other non-POST method 405; a POST is rejected with 400 exactly when its body is falsy; with an unconfigured destination the body is echoed back; the payload is forwarded exactly when the request is a POST, the body is truthy and the destination is configured; it is then `N8NPayload` of the body, and the reply follows `ClassifyDelivery` of what the transfer reported; the body is any value `json_decode` can produce |
| `RequestHandler.UnreachableDestination` | webhook.php:60-81 | a high-risk submission sent to an unreachable destination fails with the transport error and the submission echoed back, after a payload that flags special handling and quotes a minimum of 16,000 was forwarded |

## Left out

- The response headers (webhook.php:12-15) and `error_reporting`/`display_errors` (8-9) set no state the logic depends on.
- The transfer itself (webhook.php:209-229): the POST, its headers, the 30-second timeout and TLS verification are the `network` parameter of `HandleRequest`, which returns the error text, the status, the body and the decoded body.
- `json_decode` of the request and `json_encode` of the payload and reply: the decoded body is an input (`Submission.Decoded`) and the model's values stand for the JSON they are encoded as.
- `logData` (webhook.php:263-270) and its calls at 42 and 232-238: they only append to a log file.
- The HTML test page after the closing tag (webhook.php:273-390): as written it is never served, because every non-POST request leaves at line 20 or 27 and every POST with a body is answered with JSON.
- `date()`, `time()`, `uniqid()` and `$_SERVER` are fields of `Submission.Ambient`; one `now` stands for every `date('Y-m-d H:i:s')` call in a request, though they are separate calls in the script.
- Floating point: weights, values and cost factors are exact reals, so rounding artefacts of binary floating point at a `.5` boundary are not modelled.
- PHP's loose typing: each field is assumed to carry the type the script expects (a number for `kg`/`amount`, a string for ids and names); a missing key and a key holding null are the same `None` for typed fields, and a string such as "5" in a numeric field is not modelled.
- `Forwarder.ClassifyDelivery`: the status is a `nat`; curl never reports a negative one.
