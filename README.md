# clickatell-php core, modelled in Dafny

This project models the core of `clickatell-php`, a PHP client for
Clickatell's SMS REST API. It covers four parts:

- **`RestErrorHandler::handle`** (`RestErrorHandler.dfy`). It decodes a
  response body. It throws `JSON Response Not Valid: <body>` when the decoded
  value is falsy. It throws the body's `error` member when the HTTP status is
  not one of the accepted codes, and otherwise returns the decoded value. The
  accepted codes are the string `"200, 201, 202"` split at commas and compared
  loosely. The module also holds the two catalogs of three-digit codes: message
  statuses and API errors.
- **`RestV1`** (`RestV1.dfy`). This is the version 1 client. It has:
  - the request that `curl()` builds for each operation (URL, the four
    headers, verb and body), with a libcurl handle modelled as a class whose
    setters the method calls one option at a time;
  - `sendMessage`, `getMessageStatus`, `getAccountBalance` and `stopMessage`;
  - the two webhook parsers, which call the callback only when every required
    key is present.
- **`Api::load` and `Api::guessVersion`** (`Api.dfy`). `load` picks a client
  from an API type and a version. `guessVersion` reads the version off a base
  URL.
- **`Rest::load`** (`Rest.dfy`). It picks a client by a case-insensitive
  substring of the base URL, found anywhere in it. The model also states how
  its choice relates to `guessVersion`'s.

Two support modules hold the PHP semantics the client relies on:

- `PhpValues.dfy`: decoded JSON values, truthiness, `$a['k']`, `array_keys`,
  `array_diff`, the `(array)` cast, and PHP 8's loose `==` between any value
  and an integer numeric string. Decoded arrays are assumed, not required, to
  have distinct keys, as `json_decode` makes them (see the PhpValues.Lookup
  line under Left out).
- `PhpStrings.dfy`: `strpos`/`stripos`, `explode`, integer-form numeric
  strings, and PHP 8's loose `==` between strings and between an integer and a
  string.

`Backends.dfy` tags the two client kinds (`RestV1Client`, `RestV2Client`),
each carrying its token. `Wrappers.dfy` holds `Option` and `Result`.

The client calls three things it does not define: `json_encode`,
`json_decode($s, true)` and the HTTP exchange performed by `curl_exec`. These
are the fields of an `Io` value that every operation receives. An exception
thrown by the client becomes the `Failure` side of a `Result`, carrying a
`ClientError`: the two exceptions `handle` throws, or PHP 8's TypeError for
reading a named offset of a string (`$s['error']`, `$s['data']`).

Behaviour of the code worth knowing:

- A catalog lookup of an unknown code returns `None`. The catalogs have no
  generic "unknown code" fallback.
- The two catalogs are not disjoint: codes 001 and 007 appear in both.
- `Api::load` with an unsupported type or version returns nothing. It raises
  no error.
- `stopMessage` is documented as stopping a future dated message
  (src/RestV1.php:159-160). It passes `DELETE` as the custom verb, but with
  empty data. `curl()` always sets the URL, header and transfer options
  (src/RestV1.php:100-104), but with empty data it skips `CURLOPT_POST`,
  `CURLOPT_CUSTOMREQUEST` and `CURLOPT_POSTFIELDS` (src/RestV1.php:107-113),
  so libcurl sends the same body-less GET as `getMessageStatus`. The model
  states that this is what happens.
- A body with a status that is not accepted and no `error` member throws with
  `null`. The comment at src/Exceptions/RestErrorHandler.php:225-226 speaks of
  returning the entire body, but nothing falls back to the raw body.

## Model

| member | source | states |
|---|---|---|
| RestErrorHandler.AcceptedCodesAreExactly | src/Exceptions/RestErrorHandler.php:11 | splitting "200, 201, 202" at commas and testing loose `in_array` accepts exactly the statuses 200, 201 and 202, even with the blanks left in " 201" and " 202" |
| RestErrorHandler.AcceptedCodesSplit | src/Exceptions/RestErrorHandler.php:216 | `explode(",", ACCEPTED_CODES)` gives "200", " 201" and " 202", keeping the blanks |
| RestErrorHandler.AcceptedCodeValues | src/Exceptions/RestErrorHandler.php:11 | each of the three pieces is an integer-form numeric string whose value is 200, 201 or 202 |
| RestErrorHandler.InArrayLooseNumeric | src/Exceptions/RestErrorHandler.php:224 | against a list of numeric strings, loose `in_array` of an integer is membership among their values |
| RestErrorHandler.Handle | src/Exceptions/RestErrorHandler.php:213-233 | success exactly when the body decodes truthy and the status is accepted, returning the decoded value; a falsy or undecodable body fails with "JSON Response Not Valid: " followed by the body; an unaccepted status fails with the body's `error` member, or null, except that a body decoding to a string raises PHP 8's TypeError there |
| RestErrorHandler.DecodesTruthy | src/Exceptions/RestErrorHandler.php:218 | `if (json_decode($result, true))`: the body decodes and the decoded value is truthy (definition; Handle's contract states its role) |
| RestErrorHandler.InArrayLoose | src/Exceptions/RestErrorHandler.php:224 | `in_array($httpCode, $codes)` with loose comparison: some piece loosely equals the status (definition) |
| RestErrorHandler.MessageStatusTable | src/Exceptions/RestErrorHandler.php:19-68 | the message-status catalog: each code's short description (definition; its properties are the lemmas below) |
| RestErrorHandler.ErrorTable | src/Exceptions/RestErrorHandler.php:76-202 | the API error catalog: each code's short description and whether a solution is given (definition; its properties are the lemmas below) |
| RestErrorHandler.CodeString | src/Exceptions/RestErrorHandler.php:19-202 | a code number below 1000 gets a three-digit zero-padded spelling that reads back as the same number |
| RestErrorHandler.CodeStringOfNumber | src/Exceptions/RestErrorHandler.php:19-202 | reading a three-digit code and spelling it again gives the same string, so the number keys lose nothing |
| RestErrorHandler.MessageStatusCodes | src/Exceptions/RestErrorHandler.php:19-68 | the message-status catalog has the twelve codes 001 to 013 without 008 |
| RestErrorHandler.MessageStatusEntries | src/Exceptions/RestErrorHandler.php:19-68 | every message-status entry has a non-empty short description |
| RestErrorHandler.ErrorCodes | src/Exceptions/RestErrorHandler.php:76-202 | the API error catalog has exactly its twenty-five codes |
| RestErrorHandler.ErrorEntries | src/Exceptions/RestErrorHandler.php:76-202 | every API error entry has a non-empty short description |
| RestErrorHandler.DescribeStatus | src/Exceptions/RestErrorHandler.php:19-68 | a status code is found exactly when it is three digits spelling a catalog code, with a non-empty description; there is no fallback |
| RestErrorHandler.DescribeError | src/Exceptions/RestErrorHandler.php:76-202 | an error code is found exactly when it is three digits spelling a catalog code, with a non-empty description; there is no fallback |
| RestErrorHandler.EveryStatusIsDescribed | src/Exceptions/RestErrorHandler.php:19-68 | every message-status entry is found again under its zero-padded spelling |
| RestErrorHandler.EveryErrorIsDescribed | src/Exceptions/RestErrorHandler.php:76-202 | every API error entry is found again under its zero-padded spelling |
| RestErrorHandler.CatalogsShareTwoCodes | src/Exceptions/RestErrorHandler.php:19-202 | the two catalogs share exactly the codes 001 and 007 |
| RestErrorHandler.StatusLookupExamples | src/Exceptions/RestErrorHandler.php:48-62 | status "012" is "Out of credit", and status "008" is not found |
| RestErrorHandler.ErrorLookupExamples | src/Exceptions/RestErrorHandler.php:77-196 | error "301" is "No credit left" with a solution, and error "001" is "Authentication failed" without one |
| RestErrorHandler.UnknownErrorExamples | src/Exceptions/RestErrorHandler.php:76-202 | error codes "999" and "1" are not found, since there is no fallback |
| PhpValues.Truthy | src/Exceptions/RestErrorHandler.php:218 | PHP's conversion to bool: null, false, 0, 0.0, "", "0" and the empty array are false (definition) |
| PhpValues.Keys | src/RestV1.php:197 | `array_keys`: the keys, in order, one per entry |
| PhpValues.DistinctKeys | src/RestV1.php:184 | no key occurs twice in a decoded array (definition) |
| PhpValues.LookupDistinct | src/Exceptions/RestErrorHandler.php:227 | with distinct keys, the value found under a key is the one stored there |
| PhpValues.Index | src/Exceptions/RestErrorHandler.php:227 | `$v[$key]` throws exactly when `$v` is a string; otherwise it is the stored value when `$v` is an array holding the key, and null in every other case |
| PhpValues.LooseEqualsNumeric | src/Api.php:19-21 | `$v == '1'` under PHP 8 for any value: null and arrays never match, a bool matches the string's truth value, numbers match by value, strings by loose string comparison (definition) |
| PhpValues.Lookup | src/RestV1.php:131 | a key is found exactly when it is among the array's keys, and the found value is stored under it |
| PhpValues.ArrayDiff | src/RestV1.php:197 | `array_diff` keeps exactly the elements of the first list absent from the second |
| PhpValues.CastToArray | src/RestV1.php:84 | the `(array)` cast leaves arrays unchanged and gives a truthy array exactly for a truthy array or a non-null scalar |
| PhpStrings.Explode | src/Exceptions/RestErrorHandler.php:216 | `explode` gives at least one piece, no piece holds the separator, and joining the pieces with it gives back the string |
| PhpStrings.ExplodeFirst | src/Exceptions/RestErrorHandler.php:216 | exploding a piece without the separator, the separator, and a rest gives that piece followed by the rest's pieces |
| PhpStrings.StrPos | src/Api.php:35-38 | the search at the core of `stripos` (src/Api.php:35, :38; src/Rest.php:17, :20): it fails exactly when the needle does not occur, and otherwise returns the first occurrence |
| PhpStrings.StrIPos | src/Rest.php:17-20 | `stripos` fails exactly when the lower-cased needle does not occur in the lower-cased haystack |
| PhpStrings.TrimLeadingStrips | src/Api.php:19-21 | trimming removes exactly a leading run of white space: the result is a suffix of the input and every character dropped is white space |
| PhpStrings.TrimTrailingStrips | src/Api.php:19-21 | trimming removes exactly a trailing run of white space: the result is a prefix of the input and every character dropped is white space |
| PhpStrings.IsIntegerString | src/Exceptions/RestErrorHandler.php:224 | PHP 8's integer numeric string: optional surrounding white space, an optional sign, then digits; also used at src/Api.php:19-21 (definition) |
| PhpStrings.IntegerValue | src/Exceptions/RestErrorHandler.php:224 | the value of an integer numeric string: its digits read in decimal, negated after a minus sign; also used at src/Api.php:19-21 (definition) |
| PhpStrings.LooseEqualsIntString | src/Exceptions/RestErrorHandler.php:224 | an integer loosely equals a string exactly when the string is an integer numeric string of that value (definition) |
| PhpStrings.LooseEqualsStrings | src/Api.php:17-21 | two strings are loosely equal by value when both are integer numeric strings, and otherwise exactly (definition) |
| PhpStrings.LooseEqualsStringsSymmetric | src/Api.php:17-21 | loose string comparison does not depend on the order of its operands |
| PhpStrings.LooseEqualsIntThroughString | src/Exceptions/RestErrorHandler.php:224 | comparing with an integer is comparing with any integer numeric spelling of it, for numeric strings |
| RestV1.LooselyNull | src/RestV1.php:107-110 | `$customRequest == null` holds exactly for null and for strings loosely equal to "" |
| RestV1.Headers | src/RestV1.php:86-91 | the four request headers, in order (definition; its content is stated by RestV1.RequestShape) |
| RestV1.Endpoint | src/RestV1.php:95 | the base URL, a slash, then the resource path (definition; its content is stated by RestV1.RequestShape) |
| RestV1.RequestFor | src/RestV1.php:84-113 | the request for a resource: the endpoint URL and the four headers; a body exactly when the data is truthy, namely the encoding of the data cast to an array; GET for falsy data; for truthy data POST exactly when the custom verb is absent, "" or "POST", and otherwise the custom verb |
| RestV1.Exchange | src/RestV1.php:115-118 | the answer succeeds exactly when its body decodes truthy with an accepted status, and then is the decoded body |
| RestV1.SendMessageResult | src/RestV1.php:128-132 | a failed exchange fails the same way; a result is `data.message` of the handled answer |
| RestV1.CurlHandle.Outgoing | src/RestV1.php:99-115 | the request a handle sends: its URL and headers; a body only in POST mode; without a custom verb, POST exactly in POST mode; otherwise the custom verb |
| RestV1.CurlHandle.constructor | src/RestV1.php:99 | `curl_init()`: a fresh handle with no URL, no headers, no POST mode, no body and no custom verb, so it would send a body-less GET |
| RestV1.CurlHandle.SetPostFields | src/RestV1.php:109 | setting POSTFIELDS stores the body and switches to POST mode, leaving URL, headers and custom verb unchanged |
| RestV1.CurlHandle.SetCustomRequest | src/RestV1.php:111 | setting CUSTOMREQUEST stores the verb and nothing else |
| RestV1.CurlHandle.SetPost | src/RestV1.php:108 | setting POST switches to POST mode and nothing else |
| RestV1.CurlHandle.SetUrl | src/RestV1.php:100 | setting the URL changes only the URL |
| RestV1.CurlHandle.SetHttpHeader | src/RestV1.php:103 | setting the header list changes only the headers |
| RestV1.RestV1.constructor | src/RestV1.php:53-56 | the client keeps the token it is given |
| RestV1.RestV1.Curl | src/RestV1.php:81-119 | the request libcurl sends, after the options are set one by one, is the specified request: truthy data is sent JSON-encoded as the body, by POST or by the custom verb; falsy data gives a body-less GET; the answer goes through `handle` |
| RestV1.RestV1.SendMessage | src/RestV1.php:128-132 | POSTs a non-empty message to `message` (an empty one is a body-less GET) and returns `data.message` of the handled answer, or passes the failure on |
| RestV1.RestV1.GetMessageStatus | src/RestV1.php:141-145 | a body-less GET of `message/<uuid>`, with the handled answer unchanged |
| RestV1.RestV1.GetAccountBalance | src/RestV1.php:152-156 | a body-less GET of `account/balance/`, with the handled answer unchanged |
| RestV1.RestV1.StopMessage | src/RestV1.php:166-170 | the same body-less GET of `message/<uuid>` as `getMessageStatus`, since empty data keeps the DELETE verb from being set |
| RestV1.RequestShape | src/RestV1.php:86-95 | every request goes to "https://api.clickatell.com/rest/" followed by the path, with the headers X-Version 1, JSON content type and accept, and the bearer token, in that order |
| RestV1.EmptyDataIgnoresVerb | src/RestV1.php:107-113 | with empty data the custom verb makes no difference: the request is a GET with no body |
| RestV1.DataIsSentAsBody | src/RestV1.php:107-112 | with a non-empty array the body is its JSON encoding, and the verb is POST exactly when no custom verb, or "" or "POST", is given |
| RestV1.EmptyMessageIsGet | src/RestV1.php:128-130 | `sendMessage([])` sends a body-less GET of `message` |
| RestV1.Project | src/RestV1.php:131 | `$response['data']['message']`: PHP 8's TypeError when the answer or its `data` member is a string, and otherwise the stored `message` value, or null where a level is missing or not an array |
| RestV1.SendMessageRejected | src/RestV1.php:128-131 | an unaccepted status with an array answer makes `sendMessage` fail with the answer's `error` member |
| RestV1.SendMessageProjection | src/RestV1.php:131 | any accepted answer that is not a string, with a `data` member that is not a string, makes `sendMessage` return `data.message`: the stored value, or null where a level is missing or not an array |
| RestV1.SendMessageStringAnswer | src/RestV1.php:131 | an accepted answer that is a string, or whose `data` member is a string, makes `sendMessage` raise PHP 8's TypeError |
| RestV1.Dispatch | src/RestV1.php:197-199 | the callback is called at most once, always with the body, and exactly when every required key is among the body's keys |
| RestV1.ParseStatusCallback | src/RestV1.php:180-202 | the callback gets the body exactly when all nine status keys are present, and is otherwise not called |
| RestV1.ParseReplyCallback | src/RestV1.php:212-237 | the callback gets the body exactly when all twelve reply keys are present, and is otherwise not called |
| RestV1.StatusCallbackNeedsMessageId | src/RestV1.php:185-199 | a body without `messageId`, including one spelling it `MessageId`, never reaches the status callback |
| RestV1.ReplyCallbackNeedsMessageId | src/RestV1.php:217-234 | a body without `messageId` never reaches the reply callback |
| Api.LooseRestIsExact | src/Api.php:17 | "REST" is not numeric, so loose comparison with it is exact equality |
| Api.Load | src/Api.php:15-26 | a client is returned only for type "REST", with the given token: version 1 when the version, of any type, is loosely equal to '1', else version 2 when it is loosely equal to '2', else nothing |
| Api.GuessVersion | src/Api.php:33-44 | "1" exactly when the lower-cased URL holds "//api.clickatell.com/rest"; else "2" exactly when it holds "//platform.clickatell.com"; otherwise an error quoting the URL |
| Api.LoadExplicitVersions | src/Api.php:15-24 | type "REST" with version "1" or "2" gives that client; version "3" or type "rest" gives nothing |
| Api.LoadOtherVersionTypes | src/Api.php:19-21 | `true` selects version 1; 2 and 2.0 select version 2; null and false select nothing |
| Api.LoadNumericSpelling | src/Api.php:19 | loose comparison lets " 01" select version 1 |
| Rest.Load | src/Rest.php:15-26 | version 1 exactly when the lower-cased URL holds "api.clickatell.com"; else version 2 exactly when it holds "platform.clickatell.com"; otherwise the fixed error message |
| Rest.LoadIgnoresCase | src/Rest.php:17 | lower-casing the URL never changes the choice |
| Rest.SubstringNotHost | src/Rest.php:17 | the host is matched as text, so "xapi.clickatell.com" inside any URL selects version 1 |
| Rest.GuessedV1LoadsV1 | src/Rest.php:17-19 | every URL that `guessVersion` reads as "1" makes `Rest::load` pick version 1 |
| Rest.GuessedV2Loads | src/Rest.php:17-22 | every URL that `guessVersion` reads as "2" gives a client, and version 2 exactly when the version 1 host is absent |
| Rest.ResolversDisagree | src/Rest.php:17-25 | "https://api.clickatell.com/http" gives version 1 by `Rest::load`, while `guessVersion` rejects it |

## Left out

- The transport: libcurl's other options are not modelled. These are `CURLOPT_HEADER`, `CURLOPT_RETURNTRANSFER` and the user agent built from `curl_version()` and `phpversion()`.
- A failed transfer, where `curl_exec` returns false, is not modelled. Every exchange yields a body and a status.
- `json_encode`, `json_decode` and the HTTP exchange are parameters, not definitions.
- The exception text of an API error is `var_export($error, true)`. The model carries the `error` value itself, not its exported text.
- The long descriptions and the solution texts of both catalogs are left out. Only the short description and whether a solution exists are kept.
- The webhook parsers read the body from a file with `file_get_contents`. This reading is left out: the parsers take the decoded body.
- RestV1.ParseStatusCallback: requires a body that decodes to an array. For a body that does not decode to an array (invalid JSON, or JSON such as `42`, `"x"` or `true`) PHP 8's `array_keys` throws a TypeError, and that path is not modelled.
- RestV1.ParseReplyCallback: requires a body that decodes to an array, for the same reason.
- RestV1.Dispatch: requires an array body, for the same reason.
- RestV1.RestV1.SendMessage: requires an array message, which PHP's `array` type declaration enforces.
- `listen` has an empty body and is not modelled.
- `RestV2` and `ApiBase` are not part of this model. A version 2 client is only a tag carrying its token.
- PhpValues.Index: a string operand always raises the TypeError. That is PHP 8's answer for the word keys the client reads ('error', 'data', 'message'); a numeric key, which would read a character, is never used and is not modelled.
- PhpValues.Lookup: an array that repeats a key, which `json_decode` never produces, is looked up by its first entry with that key, where PHP would hold only the last.
- PhpStrings.LooseEqualsStrings, PhpStrings.LooseEqualsIntString, PhpValues.LooseEqualsNumeric: loose comparison is modelled for integer-form numeric strings only. Decimal and exponent forms such as "1.0" or "1e0" are treated as non-numeric, and the comparison rules of PHP versions before 8 are not modelled.
- Api.Load: a version string in decimal or exponent form, such as "1.0", "2.0" or "1e0", gets no client in the model, while PHP 8 compares it numerically and picks version 1 or 2.
- `stripos` is modelled as ASCII lower-casing. The locale-dependent case folding of PHP before 8.2 is not modelled.
