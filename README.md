# Guodu short message service, modelled in Dafny

This project models the `Service` class of guodu-sms, a PHP client for the
Guodu short message gateway. Four parts are covered:

- **`send`.** It checks the subscriber and the message, puts the merchant
  name before or after the message, and posts the message to the subscribers
  in batches of at most 200. With `round_trip` on, it collects the message id
  the gateway assigns to each subscriber.
- **`queryQuota`.** It asks the gateway how many messages the account may
  still send.
- **The requests built.** These are the send form and the quota URL,
  including `buildHttpGetUrl`.
- **The replies parsed.** This covers the HTTP status, the status code table
  `RESPONSE_PHRASES`, and the fold of the `<message>` elements into a map.

Modules:

- `PhpStrings`: the PHP built-ins the class relies on. These are `empty()` on
  strings (where "0" is empty), `trim()`, `implode()`, `strpos()`, and
  `explode()`, which serves as the inverse of `implode()`.
- `GuoduTypes`: the class constants, the options, the send form, the HTTP
  requests and replies, and the exceptions.
- `InputChecks`: the checks at the top of `send`, and `formatMessage`.
- `Requests`: the send form, `buildHttpGetUrl` and the quota URL.
- `Responses`: the reply table, `parseSendResponse`, PHP's array union and
  `queryQuota`'s status check.
- `Transport`: the HTTP client as a class. It answers requests from a script
  of replies, in order, and keeps a ghost log of the requests it was given.
- `Batching`: the batches (`Chunks`) and the outcome of sending them one
  after another (`Outcome`, `Issued`). This is the specification the loop of
  `sendMessage` is proved against. The ids a successful send collects are
  also described as a chain of PHP array unions (`UnionAll`).
- `GuoduService`: the class `Service`. Its settings are fixed at
  construction. `Send`, `SendMessage`, `DoSendMessage` and `QueryQuota` are
  methods that change only the client's state.

`SendMessage` keeps the loop of the source: a batch counter, an offset that
grows by 200, a slice, a `break` after a short slice, and an early exit at
the first exception. Its postcondition ties three things to the
specification functions:

- the requests it issued;
- the replies it consumed;
- its result.

The lemmas in `Batching` then state what those functions promise.

## Model

| member | source | states |
|---|---|---|
| PhpStrings.IsEmpty | src/Service.php:147 | `empty()` on a string: true for "" and for "0"; specified by ZeroIsEmpty, PaddedZeroIsEmpty and CheckInput |
| PhpStrings.Trim | src/Service.php:145 | `trim()` returns a slice of its input with only blanks (space, tab, LF, CR, NUL, vertical tab) on either side, and the result neither starts nor ends with a blank |
| PhpStrings.IndexOf | src/Service.php:277 | `strpos($base, '?')` is false exactly when there is no `?`; otherwise it is the position of the first `?`, counted in characters where `strpos` counts bytes |
| PhpStrings.Join | src/Service.php:260 | `implode(',', …)`: specified by SplitJoin, which reads the batch back from it |
| PhpStrings.FirstIndexUnique | src/Service.php:277 | a position that holds `?` with no `?` before it is the one `strpos` returns |
| PhpStrings.SplitJoin | src/Service.php:260 | splitting the `implode(',', …)` of a non-empty list of comma-free numbers at commas gives the list back |
| InputChecks.NoRecipients | src/Service.php:141 | `empty($subscriber)`: null, the number "" or "0", or an empty list; specified by ZeroIsEmpty and by Recipients (a subscriber that passes gives a non-empty list) |
| InputChecks.Recipients | src/Service.php:140-156 | `(array)$subscriber`: a single number becomes a one-element list, a list comes through unchanged, and a subscriber that passes the `empty()` check gives a non-empty list |
| InputChecks.LimitExceeded | src/Service.php:160-164 | `limitExceeded`: more than `limit` characters; specified by LimitIsInclusive (for a message with no blank at either end, 500 characters pass and 501 fail) and used by CheckInput |
| InputChecks.CheckInput | src/Service.php:138-152 | no subscriber fails first with 短信接收用户未指定; then a message that is empty after trimming fails with 短信内容为空; then one longer than 500 characters fails with 短信内容过长; success holds exactly when none of these applies, and carries the trimmed message |
| InputChecks.NamePosition | src/Service.php:155 | `name_pos` defaults to APPEND when it is not given |
| InputChecks.FormatMessage | src/Service.php:371-388 | with a non-empty name, APPEND puts the name after the whole message and PREPEND puts it before; NONE, any other position, or an empty name leaves the message unchanged |
| InputChecks.LimitIsInclusive | src/Service.php:150-164 | for a message with no blank at either end, exactly 500 characters pass and 501 fail as too long (trimming can shorten a padded message, so the limit applies to the trimmed text) |
| InputChecks.TrimKeepsUnpadded | src/Service.php:145 | a message with no blank at either end is unchanged by the trim |
| InputChecks.ZeroIsEmpty | src/Service.php:140-149 | the message "0" is refused as empty; the single subscriber "0" is refused, but a list holding "0" is not |
| InputChecks.PaddedZeroIsEmpty | src/Service.php:145-149 | " 0 " trims to "0" and is refused as empty |
| Requests.MergeDefaults | src/Service.php:110-120 | the send and quota URLs default to `SEND_URL` and `QUOTA_URL`; a given URL overrides its default; the merchant name and the affix come through unchanged |
| Requests.ContentType | src/Service.php:245-249 | `ContentType` is always 8 or 15, and is 15 exactly when `msg_type` is 15 |
| Requests.BuildRequestForSending | src/Service.php:239-264 | the form carries the account, password, send time, affix and message as given; `ValidTime` is `expires_at`, or one day from now when it is absent; `ContentType` is 15 iff `msg_type` is 15, else 8; `DesMobile` is the batch joined by commas |
| Requests.DesMobileRoundTrip | src/Service.php:260 | for a non-empty batch of comma-free numbers, `DesMobile` read back at commas is exactly the batch (a number containing a comma would be read back as two) |
| Requests.SendRequest | src/Service.php:228-229 | the POST of one batch's form to the send URL; specified by SendRequestsAt and DoSendMessage |
| Requests.SendRequests | src/Service.php:228-229 | the POSTs for a list of batches, in order; specified by SendRequestsAt |
| Requests.SendRequestsAt | src/Service.php:225-229 | the requests for a list of batches are one POST per batch, the i-th carrying the i-th batch |
| Requests.BuildHttpGetUrl | src/Service.php:275-287 | the URL starts with the base unchanged, and without parameters it is the base itself |
| Requests.GetUrlKeepsPathExtendsQuery | src/Service.php:275-287 | the three cases: for a base without `?` the query becomes the parameters; for a base ending in `?` likewise; otherwise the existing query is followed by `&` and the parameters; all three stated for at least one parameter (with none, the base is returned unchanged, as BuildHttpGetUrl states); the path never changes |
| Requests.BuildQuery | src/Service.php:279-286 | `http_build_query` without percent-encoding; specified by GetUrlKeepsPathExtendsQuery (the query it appends) and QuotaUrlShape (its `key=value&…` form) |
| Requests.QuotaUrlShape | src/Service.php:267-273 | for a quota URL without `?` the request URL is that URL + `?OperID=<account>&OperPass=<password>` |
| Requests.DefaultQuotaUrlHasNoQuery | src/Service.php:25 | the default `QUOTA_URL` contains no `?` |
| Requests.DefaultQuotaRequestUrl | spec/ServiceSpec.php:161-168 | with the default quota URL the request URL is `QUOTA_URL?OperID=<account>&OperPass=<password>`, the URL the quota test expects |
| Requests.QuotaRequestUrl | src/Service.php:267-273 | `buildRequestUrlForConsulting`: the quota URL with `OperID` and `OperPass`; specified by QuotaUrlShape and DefaultQuotaRequestUrl |
| Responses.IsSuccessCode | src/Service.php:303 | the success codes 00, 01 and 03; specified by PhraseMeansSuccess and used by ParseSendResponse |
| Responses.ErrorPhrase | src/Service.php:304-305 | the exception message for a failing code; specified by PhraseMeansSuccess and WrongPasswordPhrase |
| Responses.PhraseMeansSuccess | src/Service.php:57-71 | in the table exactly the codes 00, 01 and 03 read 短信提交成功, so no failing code is ever reported as a success |
| Responses.WrongPasswordPhrase | src/Service.php:63 | code 05 is a failure, reported as 密码错误 |
| Responses.IdMap | src/Service.php:328-331 | the `array_reduce` fold of the `<message>` entries; specified by IdMapKeys and IdMapLastWins |
| Responses.IdMapKeys | src/Service.php:328-331 | the id map has a key for every `desmobile` in the reply and no other |
| Responses.IdMapLastWins | src/Service.php:328-331 | a `desmobile` is mapped to the `msgid` of its last occurrence |
| Responses.TwoSubscriberReply | spec/ServiceSpec.php:127-143 | a reply listing two subscribers gives exactly their two ids |
| Responses.IdMapAsWritten | src/Service.php:323-331 | the fold as written, where a reply without `<message>` is wrapped as `[null]`; specified by EmptyReplyAsWritten and AsWrittenAgreesOnMessages |
| Responses.FoldIds | src/Service.php:328-331 | the `array_reduce` over possibly-null elements, the later assignment winning; specified by FoldAgrees and EmptyReplyAsWritten |
| Responses.FoldAgrees | src/Service.php:328-331 | over a reply's listed messages the fold as written gives the corrected id map, every id wrapped as present |
| Responses.EmptyReplyAsWritten | src/Service.php:318-331 | as written, a success reply without `<message>` gives the map {"" => null}; the corrected fold gives no ids |
| Responses.AsWrittenAgreesOnMessages | src/Service.php:318-331 | when the reply does list messages, the fold as written and the corrected one give the same map |
| Responses.ParseSendResponse | src/Service.php:290-332 | a status other than 200 fails with 短信服务异常; a code other than 00/01/03 fails with its phrase, or 短信发送异常(code) when it is not in the table; success holds exactly otherwise, and gives nothing without round trip and the id map with it |
| Responses.BatchResult | src/Service.php:225-236 | an exception from the client passes through; otherwise the reply is parsed |
| Responses.ArrayUnion | src/Service.php:206 | `$response + $batchResponse` has the keys of both, and on a shared key the left value wins |
| Responses.Absorb | src/Service.php:205-207 | a batch that returned nothing leaves the collected ids unchanged; otherwise its ids are unioned in |
| Responses.Finish | src/Service.php:221 | an empty collection of ids is returned as null, and any other collection as itself |
| Responses.QuotaResult | src/Service.php:172-187 | a status other than 200 fails with 短信服务器异常; a 200 reply gives the `<rcode>` number |
| Transport.Client.constructor | src/Service.php:119 | a client starts with its script of replies and an empty log |
| Transport.Client.Request | src/Service.php:174 | a request is logged and answered with the next scripted reply |
| Batching.Chunks | src/Service.php:192-202 | the slices `array_slice($subscribers, $offset, 200)` the loop sends; specified by FlattenChunks, ChunkSizes, ChunkCount and ChunkAt |
| Batching.FlattenChunks | src/Service.php:199-202 | the batches, concatenated, are the subscriber list in order |
| Batching.ChunkSizes | src/Service.php:192-202 | every batch holds 1 to 200 subscribers, and every batch but the last exactly 200 |
| Batching.ChunkCount | src/Service.php:193 | there are ceil(n / 200) batches |
| Batching.ChunkAt | src/Service.php:201-202 | batch i is the slice from offset 200·i of up to 200 subscribers |
| Batching.ThreeHundred | spec/ServiceSpec.php:77-107 | 300 subscribers go out as the first 200 and then the last 100 |
| Batching.Outcome | src/Service.php:198-221 | the result of sending the batches one after another; specified by OutcomeSucceedsIffEveryBatch, FirstFailureStops, EarlierBatchesWin, OutcomeCollects, OutcomeTakesEarliest and NoRoundTripNoIds |
| Batching.Issued | src/Service.php:198-217 | a run over n batches makes at most n requests, and at least one when n > 0 |
| Batching.OutcomeSucceedsIffEveryBatch | src/Service.php:199-207 | the send succeeds exactly when every batch's reply is a success |
| Batching.FirstFailureStops | src/Service.php:204 | when batch k is the first to fail, its exception is the result and exactly k + 1 requests were made |
| Batching.SuccessIssuesEveryBatch | src/Service.php:198-217 | a successful send made one request per batch |
| Batching.EarlierBatchesWin | src/Service.php:205-207 | an id collected from an earlier batch is never overwritten by a later batch |
| Batching.OutcomeIsUnion | src/Service.php:196-207 | the ids of a successful send are the ids already held followed, under PHP's `+`, by the ids of every batch's reply in order |
| Batching.OutcomeCollects | src/Service.php:196-207 | a successful send holds an id for a subscriber exactly when it was already held or some batch's reply lists that subscriber |
| Batching.OutcomeTakesEarliest | src/Service.php:205-207 | a subscriber's id comes from the earliest batch whose reply lists it; later batches never overwrite it |
| Batching.UnionAllKeys | src/Service.php:206 | a chain of PHP array unions has exactly the keys of its operands |
| Batching.UnionAllEarliest | src/Service.php:206 | in a chain of PHP array unions, a key takes its value from the leftmost operand that holds it |
| Batching.NoRoundTripNoIds | src/Service.php:309-311 | without round trip a successful send collects no ids, so `send` returns null |
| GuoduService.Service.constructor | src/Service.php:110-120 | the service keeps the account, the password and the client, with the URL defaults merged into its options |
| GuoduService.Service.Send | src/Service.php:138-157 | a rejected call fails with the first failing check and makes no request; otherwise the trimmed message, with the name placed, is sent to the subscriber list in batches as `SendMessage` states |
| GuoduService.Service.SendMessage | src/Service.php:190-222 | the client's log gains one POST per batch, in order, up to and including the first failing one, and exactly that many replies are consumed; the result is the first exception, or the union of the batches' ids, null when empty |
| GuoduService.Service.DoSendMessage | src/Service.php:225-236 | one POST of the batch's form to the send URL; the result is the parsed reply or the client's exception |
| GuoduService.Service.QueryQuota | src/Service.php:172-187 | one GET of the quota URL; the result is the quota or the status failure |
| GuoduService.EveryRecipientAddressed | src/Service.php:199-202 | read back from `DesMobile`, the requests for all batches address every subscriber once, in the order given, provided no number contains a comma |

## Left out

- The HTTP transport (Guzzle, `createDefaultHttpClient`) is replaced by a client that answers from a script. Any exception it throws is a `TransportError`.
- `doSendMessage`'s branch for a null response (src/Service.php:231-235) is left out: the client interface never returns null.
- Transcoding the message to GBK (`mb_convert_encoding`) is left out: the form carries the message as text.
- The XML parsing of replies, the encoding rewrite in `parseResponseAsSimpleXmlElement` and the `json_encode`/`json_decode` step are left out. A reply body is taken as already parsed: the `<code>`, the list of `<message>` entries and the `<rcode>` number.
- `intval` on `<rcode>` is not modelled: the parsed body already holds the number.
- The clock: `date('YmdHis', time() + 86400)` is a parameter (`defaultExpiry`) of the send operations, read once per `send`. The source reads the clock again for every batch (src/Service.php:252), so batches sent on either side of a clock tick can carry different `ValidTime`s; in the model every batch of one `send` without `expires_at` carries the same one.
- Positions and lengths in `buildHttpGetUrl` are counted in characters; `strpos` and `strlen` count bytes (src/Service.php:277, 282). The tests made there (is there a `?`, is it the last character) come out the same either way, but the positions themselves differ for multibyte URLs.
- `http_build_query` is modelled as `key=value` pairs joined by `&`, without percent-encoding.
- Options are either absent or present with a value. A key present with a null value, and `msg_type` or `name_pos` values that are not integers (PHP's loose `==` in `in_array` and `switch`), are not modelled.
- Responses.IsSuccessCode: compares the `<code>` text exactly. The loose `in_array` comparison of the source, which would also accept codes such as "0" or "3", is not modelled.
- The order of the returned ids is not modelled: a PHP array keeps insertion order (the ids of batch 1 first, in reply order), while a Dafny map has no order. The model states which ids are returned and their values.
- PHP's conversion of numeric-string array keys to integers, which does not change which keys are equal here, is not modelled.
- `limitExceeded` counts characters as `mb_strlen` does; multibyte decoding itself is not modelled.

## Findings

| source | as written | input that shows it | evidently intended | confidence | as-written member | corrected member |
|---|---|---|---|---|---|---|
| src/Service.php:318-331 | with round trip on, a success reply with no `<message>` element leaves `$response->message` null; it is wrapped as `[null]` and folded into the map `['' => null]`, which is not empty, so `send` returns it | `<response><code>03</code></response>` with `round_trip` true | no message ids, so the result is an empty map and `send` returns null | medium, not executed | Responses.EmptyReplyAsWritten | Responses.IdMapKeys |
