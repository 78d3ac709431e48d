# CurlRequests, modelled in Dafny

`CurlRequests` is a PHP helper with two static operations, `get` and `post`.
Each one builds a cURL option array, runs one transfer with it, and returns a
plain object holding the HTTP status code and the response body. When the
transfer fails, it throws an exception carrying cURL's error number.

The only logic the helper owns is how it builds the option array and how it
turns the transfer's outcome into a result. This project models both:

- `PhpArray` (`php_array.dfy`): the PHP array operations the helper relies on.
  An array is an ordered sequence of key/value entries.
  - `Union` is the `+` operator.
  - `Assign` is `$a[k] = v`.
  - `ToMap` is the finite map an array denotes.
- `Headers` (`headers.dfy`): turning the header array into the list of
  `"Name: Value"` lines. It also defines the reading back of such a list, so
  the round trip can be proved.
- `CurlOptions` (`curl_options.dfy`): the option keys and values, and the
  defaults of `get` and `post`.
  - `Effective` is the merge `$options + $defaultOptions` followed by the
    header assignment.
  - `GetOptions` and `PostOptions` are the option sets of the two operations.
- `CurlRequests` (`curl_requests.dfy`): turning a transfer outcome into a
  `Response` or a `TransportError`, and the two operations end to end.
- `Wrappers` (`wrappers.dfy`): `Option` and `Result`.

The transfer is a parameter `exec: Options -> Outcome`. `Outcome` is either
`Failed(errno)` or `Completed(body, httpCode)`. Two library functions are
also parameters, because their behaviour is not part of this code:
`curl_strerror` (`strerror`) and `http_build_query` (`formEncode`).

Three facts about the code that the model keeps:

- The error message starts with `"cURL error: "`.
- The header list keeps the order of the header array.
- The URL is not checked.

The optional arguments keep their PHP defaults as Dafny default parameter
values: no headers, no caller options, and TLS verification on.

## Model

| member | source | states |
|---|---|---|
| PhpArray.Union | CurlRequests.php:42 | `options + defaults` starts with every entry of `options`, in order. It is at least as long. |
| PhpArray.UnionMap | CurlRequests.php:42 | In the map of `options + defaults`, the caller's entry wins on every shared key. Defaults only supply keys the caller lacks. |
| PhpArray.UnionTail | CurlRequests.php:42 | After the caller's entries, the union holds only default entries whose key the caller did not supply. |
| PhpArray.UnionDistinct | CurlRequests.php:42 | The union of two arrays without repeated keys has no repeated key. |
| PhpArray.Assign | CurlRequests.php:50 | `$a[k] = v` keeps the length when `k` is present and adds one entry otherwise. Every entry with another key stays at its position unchanged. |
| PhpArray.AssignMap | CurlRequests.php:50 | After `$a[k] = v`, `k` maps to `v` and every other key keeps its value. |
| PhpArray.AssignKeys | CurlRequests.php:50 | The assignment keeps an existing key in its place. A new key goes last. No other key moves. |
| PhpArray.AssignDistinct | CurlRequests.php:50 | The assignment never creates a repeated key. |
| Headers.Lines | CurlRequests.php:44-48 | The header list has one line per header, in the header array's order. Line i is `name_i + ": " + value_i`. An empty header array gives an empty list. |
| Headers.HeaderLineRoundTrip | CurlRequests.php:47 | A header whose name has no colon can be read back exactly from its line. |
| Headers.HeaderListRoundTrip | CurlRequests.php:44-48 | Reading the whole list back gives the header array, in order. So the list loses no header. |
| CurlOptions.PostBody | CurlRequests.php:92 | The default POST body is the string verbatim, or `http_build_query` of an array. |
| CurlOptions.GetDefaults | CurlRequests.php:33-40 | The GET default array has six entries, one for each GET default key, with no key repeated. |
| CurlOptions.PostDefaults | CurlRequests.php:85-93 | The POST default array has seven entries, one for each POST default key, with no key repeated. |
| CurlOptions.GetDefaultsValues | CurlRequests.php:33-40 | The GET defaults are the URL, return-transfer 1, connect timeout 10 and follow-location true. The TLS toggle sets host check 2 and peer check true, or 0 and false. |
| CurlOptions.PostDefaultsValues | CurlRequests.php:85-93 | The POST defaults are the URL, return-transfer 1, connect timeout 10 and custom request "POST". They add the same TLS toggle, and as body either the string verbatim or the form-encoded fields. |
| CurlOptions.Effective | CurlRequests.php:42-50 | The effective option map is the defaults overlaid by the caller's map, with the header list written last. |
| CurlOptions.EffectiveOrder | CurlRequests.php:42-50 | The caller's options stay at the front of the option array, in their order. Each keeps its value, except a caller HttpHeader entry. |
| CurlOptions.EffectiveDistinct | CurlRequests.php:42-50 | Merging two arrays without repeated keys and assigning the header list gives an array without repeated keys. |
| CurlOptions.EffectiveByKey | CurlRequests.php:42-50 | Key by key: the key set is caller ∪ defaults ∪ {HttpHeader}. A caller value wins except on HttpHeader. Defaults fill the remaining keys. HttpHeader is always the serialised list. |
| CurlOptions.CallerHeaderIgnored | CurlRequests.php:50 | A caller-supplied HttpHeader option has no effect. Removing it beforehand gives the same option map. |
| CurlOptions.GetOptions | CurlRequests.php:30-50 | The caller's options lead the GET option array, keys in their order. The array repeats no key when the caller's array repeats none. Headers and options default to none, TLS verification to on. |
| CurlOptions.GetKeySet | CurlRequests.php:33-50 | A GET sets exactly the caller's keys, the six GET default keys and HttpHeader. |
| CurlOptions.GetCallerWins | CurlRequests.php:42-50 | Every caller option other than HttpHeader keeps the caller's value. HttpHeader is the list built from `headers`, even when the caller passed one. |
| CurlOptions.GetDefaultFill | CurlRequests.php:33-42 | Every GET default the caller did not supply is present with its default value. This includes the TLS toggle. |
| CurlOptions.GetHasNoPostOptions | CurlRequests.php:33-42 | A GET has a custom request or post fields option only when the caller passed one. |
| CurlOptions.PostOptions | CurlRequests.php:82-103 | The caller's options lead the POST option array, keys in their order. The array repeats no key when the caller's array repeats none. The optional arguments default as for GET. |
| CurlOptions.PostKeySet | CurlRequests.php:85-103 | A POST sets exactly the caller's keys, the seven POST default keys and HttpHeader. |
| CurlOptions.PostCallerWins | CurlRequests.php:95-103 | Every caller option other than HttpHeader keeps the caller's value. HttpHeader is the list built from `headers`. |
| CurlOptions.PostDefaultFill | CurlRequests.php:85-95 | Every POST default the caller did not supply is present with its default value. The body is `data` verbatim for a string, or `formEncode(data)` for an array. |
| CurlOptions.PostHasNoFollowLocation | CurlRequests.php:85-95 | A POST follows redirects only when the caller asked for it. |
| CurlOptions.PlainGet | CurlRequests.php:30-50 | `get($url)` sends no headers, sets exactly the GET default keys and HttpHeader, and verifies TLS: host check 2, peer check on. |
| CurlOptions.PlainPost | CurlRequests.php:82-103 | `post($url, $data)` sends no headers, sets exactly the POST default keys and HttpHeader, and verifies TLS: host check 2, peer check on. |
| CurlOptions.GetPostAgree | CurlRequests.php:85-93 | Given the same arguments, GET and POST option maps agree on every key except follow-location, custom request and post fields. |
| CurlRequests.Conclude | CurlRequests.php:57-68 | A failed transfer becomes an error with code `errno` and message `"cURL error: " + strerror(errno)`. A completed one becomes a response with the reported status code and the body unchanged. |
| CurlRequests.ConcludeLosesNothing | CurlRequests.php:57-68 | The outcome can be read back from the result, so no information is lost. |
| CurlRequests.Get | CurlRequests.php:30-69 | A GET succeeds exactly when the transfer, run with the GET option set, completes. The outcome of that transfer can be read back from the result. A failure's message is `"cURL error: " + strerror(code)`. |
| CurlRequests.Post | CurlRequests.php:82-122 | A POST succeeds exactly when the transfer, run with the POST option set, completes. The outcome of that transfer can be read back from the result. A failure's message is `"cURL error: " + strerror(code)`. |

## Left out

- Network I/O is not modelled: `curl_init`, `curl_setopt_array`, `curl_exec`, `curl_getinfo` and `curl_errno`. The transfer is the parameter `exec`, which sees the effective option array and reports an `Outcome`.
- `curl_setopt_array` applies options in order and stops at the first one it rejects. The helper ignores its return value. The model does not model rejected options.
- `curl_strerror` and `http_build_query` are parameters. Their texts and percent-encoding rules belong to PHP and libcurl.
- TLS verification, connect timeouts, redirect following and HTTP itself are transport behaviour, not this code's logic.
- The option keys are a datatype, not libcurl's integer constants. `Other(code)` stands for any option the helper does not name. A caller who passes a named option by its raw number is not modelled.
- Option values are strings, integers, booleans and string lists. Other PHP values, such as callbacks or arrays for multipart bodies, are not modelled.
- A caller may override `CURLOPT_RETURNTRANSFER` with a false value. Then `curl_exec` prints the body and returns `true`, so `content` becomes `true`. The model's outcome always carries a string body.
- Header names and values are taken as text already converted by PHP. An integer key in the header array is not modelled; PHP would print it in decimal.
- A POST `data` that is neither a string nor an array is not modelled. PHP passes it through unchanged; the model's `Raw` holds only strings.
- The `stdClass` result and the `Exception` become the records `Response` and `TransportError`. The curl handle is never closed explicitly in the code, and the model does not track it.
