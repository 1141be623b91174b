# Tinify PHP client — a Dafny model

This project models the deterministic core of the PHP client for the Tinify
image-compression API (`Devscast\Tinify`):

- the exception hierarchy (`NetworkException::create` and its constructor): a
  total classification of HTTP statuses into AccountError (401, 429),
  ClientError (other 4xx), ServerError (5xx) and the base NetworkError, the
  placeholder for an empty message (PHP `empty`, so also `"0"`), and the
  `msg (HTTP status/type)` message format — `errors.dfy`;
- PHP's int-to-string conversion and `intval` on strings, with round trips in
  both directions — `decimal.dfy`;
- the `Source` value object: header lists reduced to their first value, and
  the typed accessors with their defaults — `sources.dfy`;
- the AWS and GCS storage configurations, built by PHP `array_merge` of fixed
  keys with the caller's options — `storage.dfy`;
- the `Client`: which request each operation sends (method, URL, body), the
  early rejection of invalid URLs, the `download` decision, and how a reply
  becomes a `Source` or a failure — `client.dfy`. The client is a class whose
  `log` records every request its transport received; the transport is a
  function from that request history to a reply.

Shared values (Option, Result, JSON documents) are in `values.dfy`.

Only the transport's 4xx `ClientException` is caught and translated into the
library's exceptions; 3xx and 5xx responses and connection failures propagate
as the transport raised them (`ApiClient.ServerErrorsNotTranslated`), so the
ServerError kind is never produced by the client itself.

## Model

| member | source | states |
|---|---|---|
| `Errors.Classify` | src/Exception/NetworkException.php:19-24 | AccountError iff status is 401 or 429 (ahead of the 4xx test); ClientError iff 400..499 minus those; ServerError iff 500..599; base NetworkError iff outside 400..599 — a partition of all integers |
| `Errors.ShownMessage` | src/Exception/NetworkException.php:18 | "" and "0" become "No message was provided", any other message is kept; the result is never empty |
| `Errors.Create` | src/Exception/NetworkException.php:16-25 | kind is the classification of the status, `status` field is the input status, message is the shown message followed by " (HTTP status/type)" |
| `Errors.NewNetworkException` | src/Exception/NetworkException.php:27-34 | the status field is the argument; without a status the message is unchanged, with one it is extended by " (HTTP status/type)" (null type prints empty) |
| `Errors.CreateStatusReadBack` | src/Exception/NetworkException.php:29-30 | in a created exception's message, `intval` of the text after " (HTTP " is the status again |
| `Errors.InvalidUrlMessage` | src/Exception/InvalidUrlException.php:14-19 | the message is the URL followed by " is not a valid URL" |
| `Decimal.Show` | src/Exception/NetworkException.php:30 | the printed form of an int starts with '-' exactly for negatives, followed by the natural-number digits |
| `Decimal.ShowNat` | src/Exception/NetworkException.php:30 | the printed form of a natural number is non-empty, all digits, and starts with 0 only for 0 |
| `Decimal.IntVal` | src/Source.php:34 | after leading whitespace, a string with no sign or digit reads as 0; a negative result only comes from a '-' sign |
| `Decimal.IntValLenient` | src/Source.php:34 | `intval` skips leading whitespace and stops at the first non-digit: " 12" and "12abc" read as 12, "abc" as 0, "-7" as -7 |
| `Decimal.IntValShow` | src/Source.php:32-35 | `intval` of a printed integer, followed by nothing or a non-digit, is that integer |
| `Decimal.ShowIntValCanonical` | src/Source.php:32-35 | a canonical decimal string (digits, no leading zero) read by `intval` and printed is the same string |
| `Sources.FirstValues` | src/Source.php:16-19 | the reduced metadata has exactly the header names as keys, each mapped to its first value |
| `Sources.NewSource` | src/Source.php:14-20 | construction succeeds iff every header has at least one value; then keys are the header names, values the first values, data the given data |
| `Sources.NewSourceOfSingleValued` | src/Source.php:16-19 | reducing one-element header lists gives back the metadata they were spread from |
| `Sources.LaterValuesIgnored` | src/Source.php:16-19 | appending further values to a header does not change the constructed source |
| `Sources.Source.ToBuffer` | src/Source.php:22-25 | returns the source's data unchanged |
| `Sources.BufferIsConstructorData` | src/Source.php:22-25 | `toBuffer` returns the data given to the constructor |
| `Sources.Source.IntHeader` | src/Source.php:34 | a missing numeric header reads as 0; a present one reads as `intval` of its value, which for a printed integer is that integer |
| `Sources.Source.Size` | src/Source.php:32-35 | `content-length` as an int: 0 when absent, otherwise `intval` of its value, which is the printed number when it holds one |
| `Sources.Source.MediaType` | src/Source.php:37-40 | the `content-type` value verbatim when present; absent gives the TypeError case |
| `Sources.Source.Width` | src/Source.php:42-45 | `image-width` as an int: 0 when absent, otherwise `intval` of its value, which is the printed number when it holds one |
| `Sources.Source.Height` | src/Source.php:47-50 | `image-height` as an int: 0 when absent, otherwise `intval` of its value, which is the printed number when it holds one |
| `Sources.Source.Location` | src/Source.php:52-55 | the `location` value when present, null otherwise |
| `Sources.LocationFromHeaders` | src/Source.php:52-55 | for a constructed source, the location is null iff the response had no `location` header, else its first value |
| `Sources.CanonicalHeaderRoundTrip` | src/Source.php:34 | a canonical decimal header value printed after `intval` is the header text again |
| `Sources.TypicalShrinkResponse` | src/Source.php:32-60 | a typical shrink response with content-length 1234, content-type image/png, width 10, height 20 and a location gives exactly those values, and compression count 0 |
| `Sources.Source.CompressionCountAsWritten` | src/Source.php:57-60 | as written: 0 when the header is absent, a TypeError whenever it is present |
| `Sources.Source.CompressionCount` | src/Source.php:57-60 | as intended: 0 when absent, otherwise `intval` of its value, which is the printed number when it holds one |
| `Sources.LenientNumericHeaders` | src/Source.php:32-50 | header values that are not printed integers are read as `intval` reads them (" 12", "12abc" give 12; "abc" gives 0) |
| `Sources.CompressionCountCounterexample` | src/Source.php:59 | with `compression-count: "7"` the method as written fails while the intended one reads 7 |
| `Storage.ArrayMerge` | src/Storage/Aws.php:24-29 | keys are the union of both arrays; the later array's values win; other keys keep the earlier values |
| `Storage.Aws.Configuration` | src/Storage/Aws.php:22-30 | keys are service, region, aws_secret_access_key, aws_access_key_id plus the option keys; every option value appears as given; without an override service is "aws" and the other three are the constructor's credentials |
| `Storage.Gcs.Configuration` | src/Storage/Gcs.php:20-26 | keys are service and gcp_access_token plus the option keys; every option value appears as given; without an override service is "gcs" and the token is the constructor's |
| `Storage.StorageConfig.Configuration` | src/Storage/StorageInterface.php:14 | each provider answers with its own configuration, which always has a `service` key |
| `ApiClient.SourceUrlBody` | src/Client.php:58 | the body has the single key `source`, whose object has the single key `url`, holding the URL |
| `ApiClient.PreserveBody` | src/Client.php:62-67 | the body has the single key `preserve`, holding the metadata unchanged |
| `ApiClient.PreserveDefaultBody` | src/Client.php:62-65 | `preserve` without metadata sends {"preserve": []} |
| `ApiClient.ResizeBody` | src/Client.php:73-80 | the body has the single key `resize`, holding exactly method, width and height with the arguments unchanged |
| `ApiClient.StoreBody` | src/Client.php:86-89 | `store` holds the configuration keys plus `path`; `store.path` is always the bucket path; every other configuration key is sent unchanged |
| `ApiClient.Translate` | src/Client.php:128-136 | never a success; an exception of the library exactly when the body has `message` and `error`, built by `create` with the response status; an undecodable body fails untranslated |
| `ApiClient.SourceFromResponse` | src/Client.php:138-144 | a Source exactly when every header has a value, and then the Source the constructor builds from headers and content |
| `ApiClient.Outcome` | src/Client.php:106-117 | a transport failure stays untranslated; a 2xx reply becomes the Source built from it; a 4xx reply is translated; any other status is left untranslated; only a 2xx reply can succeed |
| `ApiClient.TranslationBoundary` | src/Client.php:112-113 | a failure is one of the library's exceptions iff the reply is a 4xx with a readable error body; that exception has the reply's status and is always AccountError or ClientError |
| `ApiClient.SuccessBuildsSource` | src/Client.php:138-144 | the outcome is a Source iff the reply is a success with well-formed headers, and it is the Source built from them |
| `ApiClient.ServerErrorsNotTranslated` | src/Client.php:119-126 | a 5xx reply reaches the caller as the transport's exception, not as a ServerError |
| `ApiClient.UploadOutcomeAsWritten` | src/Client.php:119-126 | as written, upload never yields one of the library's exceptions |
| `ApiClient.UnauthorizedUploadCounterexample` | src/Client.php:121-124 | a 401 reply to an upload: untranslated as written, an AccountError with status 401 as intended |
| `ApiClient.BufferOf` | src/Client.php:100-104 | the downloaded source's bytes, or the download's failure unchanged |
| `ApiClient.Client.constructor` | src/Client.php:26-39 | a fresh client has received no requests and keeps its token, proxy and transport |
| `ApiClient.Client.Send` | src/Client.php:122 | the transport records exactly this request and its reply is the answer to the whole history |
| `ApiClient.Client.Upload` | src/Client.php:119-126 | exactly one POST with the given body to the given URL; the result is the outcome of its reply under the corrected routing (the code as written is `ApiClient.UploadOutcomeAsWritten`) |
| `ApiClient.Client.FromBuffer` | src/Client.php:46-50 | exactly one POST to /shrink whose raw body is the buffer |
| `ApiClient.Client.FromFile` | src/Client.php:41-44 | the same request as FromBuffer on the file contents; an unreadable file sends nothing |
| `ApiClient.Client.FromUrl` | src/Client.php:52-60 | an invalid URL fails with the InvalidUrl message and sends nothing; a valid one sends exactly one POST to /shrink with {source:{url}} |
| `ApiClient.Client.Preserve` | src/Client.php:62-69 | exactly one POST of {preserve: metadata} to the source's location; without a location nothing is sent |
| `ApiClient.Client.Resize` | src/Client.php:71-82 | exactly one POST of {resize:{method,width,height}} to the source's location; without a location nothing is sent |
| `ApiClient.Client.ToCloud` | src/Client.php:84-92 | exactly one POST of {store: configuration with path} to the source's location; without a location nothing is sent |
| `ApiClient.Client.Download` | src/Client.php:106-117 | without a location the source is returned unchanged and nothing is sent; otherwise exactly one GET to the location |
| `ApiClient.Client.ToBuffer` | src/Client.php:100-104 | the bytes of the source itself when it has no location (nothing sent), else of one GET to the location |
| `ApiClient.ToBufferTwice` | src/Client.php:100-117 | two calls for a source with a location send two GETs: nothing is cached |

## Left out

- HTTP transport: the base URI, basic authentication with the token, the proxy and the retry policy (3 retries, generic strategy with a 500 ms delay) belong to the HTTP client the class owns; the model replaces it by a function from the request history to a reply, and the token and proxy have no effect in the model.
- JSON encoding of request bodies and decoding of error bodies: bodies are JSON values, the decoded error body is part of the reply, and error-body fields that are not strings are not represented. Key order inside JSON objects is not modelled.
- PHP's URL validation filter: taken as the client's `validUrl` parameter instead of restating its grammar.
- File I/O: `Client::toFile` and `Source::toFile` (writing a file) are not part of this model; `fromFile` receives the file's contents, or their absence, as a parameter.
- Decimal.IntVal: exponent and fraction forms (PHP reads "1e3" as 1000) and saturation at the 64-bit integer limits are not modelled; integers are unbounded throughout.
- Storage.ArrayMerge: option keys are non-numeric strings; PHP renumbers integer keys and integer-like string keys, which the model does not capture.
- Sources.Source.MediaType: the absent-header case is a None result standing for PHP's TypeError.
- PHP warnings for reading absent array keys are not modelled, only the value that follows (null, hence 0 after `intval`).
- PHP strings are byte strings; buffers, messages, URLs and header values are modelled as `string` (sequences of characters). Nothing in the modelled behaviour depends on the difference.
- The raw exceptions that are not translated are tags (`Cause`) without their messages.
- `src/Result.php` holds no logic and is not part of this model.

## Findings

| source | as written | input that shows it | evidently intended | confidence | as-written member | corrected member |
|---|---|---|---|---|---|---|
| src/Source.php:57-60 | returns the raw header string from a method declared to return int under strict types, which PHP rejects with a TypeError | any response carrying `compression-count`, e.g. "7" | `intval` of the header, 0 when absent | high; not executed | `Sources.Source.CompressionCountAsWritten` | `Sources.Source.CompressionCount` |
| src/Client.php:119-126 | the `try` encloses only the request call; the HTTP client's responses are lazy, so a 4xx status is raised when `createSourceFromResponse` reads the headers, outside the `try` | a 401 reply to `fromBuffer` | the 4xx translated into AccountException or ClientException, as `download` does | medium (depends on the HTTP client's documented lazy responses); not executed | `ApiClient.UploadOutcomeAsWritten` | `ApiClient.TranslationBoundary` |

The counterexamples are `Sources.CompressionCountCounterexample` and
`ApiClient.UnauthorizedUploadCounterexample`. The client class uses the
corrected definitions: `ApiClient.Outcome` for every operation, and
`Sources.Source.CompressionCount`.
