# Payer FSP of the Mojaloop simulator, in Dafny

This project models the payer side of the Mojaloop simulator and proves
properties of that model. The payer side is the part that plays a payer
DFSP against a Mojaloop switch in automated tests.

- **Stores.** The payer keeps three correlation stores and one amount:
  - the correlation store (id to payload);
  - the request store (quote id to inbound request);
  - the callback store (id to inbound request);
  - the amount of the last quote answer.
- **Callbacks.** Every inbound callback overwrites the store entries for
  its id.
- **Test harness reads.** Three diagnostic getters let the harness read
  the entries back. Two of them delete the entry as they read it.
- **Detached tasks.** A quote request, a quote answer and an
  authorisation answer each set off a task that calls other services:
  - a quote request returns a signed quote answer;
  - a quote answer goes three ways: it rejects the transaction request, or
    it asks for an OTP authorisation, or it prepares the transfer;
  - an authorisation answer prepares the transfer.

  Two configured amount ranges choose between the three ways of a quote
  answer.
- **Outbound builders.** They build each outbound request and accept only
  one reply status.

The modules:

- `Values`: JavaScript values and the behaviour of property reads on them:
  - reading a property of `undefined` or `null` throws;
  - `String(v)`;
  - truthiness.
- `Text`: `split`, `join`, global one-character `replace`, `toUpperCase`.
- `Decimal`: an exact decimal reading of amounts, standing in for
  `parseFloat`.
- `Outbound`:
  - an outbound request and its delivery;
  - the abstract send, whose reply is an input;
  - the clock and the JSON/base64url codec, as parameters.
- `AmountRanges`: the range classifier `isInRange` and the two flow checks.
- `TransactionRequests`: the transaction-request status callback and its
  continuation.
- `PostTransfers`, `PostQuotes`, `GetAuthorizations`: the three outbound
  builders.
- `PayerMetadata`: the route directory (`extractUrls`, `metadata`).
- `PayerHandler`:
  - the handlers, as the class `PayerFsp` over the three stores and the
    stored amount;
  - the specification functions of the detached tasks.

Three kinds of outcome are visible in the model:

- **Synchronous answer.** Each handler returns the status code it answers
  with at once.
- **Detached task.** A handler that starts one also returns it as a `Task`:
  the list of outbound actions it took and whether it ended with an
  uncaught exception. The task is taken as running to completion.
- **Delivery.** Each action records its `Delivery`:
  - not sent, because building the request threw inside the `try`;
  - or sent, with whether the reply was the one success status.

## Model

| member | source | states |
|---|---|---|
| AmountRanges.IsInRange | src/helpers.js:1-9 | It returns an error exactly when the amount is truthy and the range is unset (`[].split` throws). It returns "no answer" exactly when the amount is falsy or the range is empty. It returns true exactly when both are given and the parsed amount lies within the parsed bounds. |
| AmountRanges.Bounds | src/helpers.js:6-8 | The lower bound is the decimal reading of the first piece of the split. A range without '-' has that whole text as its lower bound and no upper bound (the missing piece is undefined, which is NaN). |
| AmountRanges.BoundsOfPair | src/helpers.js:6-8 | "from-to", with no '-' inside either piece, reads as the two decimals of `from` and `to`. |
| AmountRanges.InclusiveAtBothEnds | src/helpers.js:8 | Both ends are inclusive. With a truthy amount that parses and readable bounds, the answer is exactly `from <= amount <= to`. |
| AmountRanges.EmptyIntervalSelectsNothing | src/helpers.js:8 | A range whose lower bound exceeds its upper bound selects no amount. |
| AmountRanges.WholeNumberRange | src/helpers.js:6-8 | For whole numbers written in decimal, "from-to" selects exactly the amounts from `from` to `to` inclusive. |
| AmountRanges.ExtraPiecesIgnored | src/helpers.js:6 | Only the first two pieces of the split are used. |
| AmountRanges.NegativeLowerBoundSelectsNothing | src/helpers.js:6-8 | A range that starts with '-' has an empty first piece, which is NaN, so it selects nothing. |
| AmountRanges.FlowsAreIndependent | src/helpers.js:11-17 | The rejected and OTP checks are separate range tests. One amount can satisfy both. |
| AmountRanges.RejectedRangeExample | src/helpers.js:11-13 | The range "10-20" selects "15" and does not select "21". |
| AmountRanges.OtpRangeExample | src/helpers.js:15-17 | The range "50-60" selects "55". |
| TransactionRequests.TransactionRequestState | src/transactionRequests/helpers.js:17-26 | A non-empty explicit state is used as given. Otherwise the state is REJECTED iff the amount parses to 15.15, and RECEIVED otherwise. |
| TransactionRequests.AmountProbe | src/transactionRequests/helpers.js:18-22 | The chain `payload && payload.amount && payload.amount.amount` never throws. With a truthy payload and amount it reads the nested amount. With a falsy payload it gives the payload, and with a truthy payload whose amount is falsy it gives that amount. |
| TransactionRequests.AmountInvalidMeans | src/transactionRequests/helpers.js:17-22 | The amount is invalid exactly when the payload and its amount are truthy and the nested amount reads as 15.15. |
| TransactionRequests.FalsyIsNotInvalid | src/transactionRequests/helpers.js:18-22 | No falsy value (`undefined`, `null`, `false`, `0`, `NaN`, `""`) reads as 15.15, so a chain that stops early is never invalid. |
| TransactionRequests.InvalidAmountExamples | src/transactionRequests/helpers.js:17-22 | "15.15" as a string or as a number is the invalid amount; "15.16" is not. |
| TransactionRequests.MissingAmountIsValid | src/transactionRequests/helpers.js:18-22 | The short-circuit chain does not throw on a missing payload or amount, and neither is invalid. |
| TransactionRequests.CallbackHeaders | src/transactionRequests/helpers.js:32-41 | The headers are addressed back: source and destination are swapped. The URI is `/transactionRequests/{trxId}`, the method is PUT and the content type is fixed. Trace headers are copied only when non-empty. No Accept header, and no header outside these and Date, is sent. |
| TransactionRequests.TransactionRequestCallback | src/transactionRequests/helpers.js:12-47 | Nothing is built iff the payload is undefined or null. Otherwise it is a PUT to the endpoint + `/transactionRequests/` + the cached id. The body holds exactly the id, the chosen state and the payload's `extensionList`. |
| TransactionRequests.PutTransactionRequest | src/transactionRequests/helpers.js:11-65 | The delivery is the callback built from `requestsCache`'s `transactionRequestId`, where only 200 is success. The continuation runs iff the callback was sent and answered 200 and the state is not REJECTED. A null continuation is flagged as invoked-null. |
| TransactionRequests.RejectedNeverContinues | src/transactionRequests/helpers.js:57-61 | An explicit REJECTED state stays REJECTED, so a null continuation is never touched. |
| PostTransfers.TransferHeaders | src/postTransfers/index.js:28-37 | Source and destination are swapped. The signature and `traceparent` are passed through unchanged. Accept, Content-Type and Date are fixed. No other header is sent. |
| PostTransfers.TransferRequest | src/postTransfers/index.js:12-45 | Nothing is built iff the payload is undefined or null. Otherwise it is a POST to the endpoint + `/transfers`. The body has exactly seven fields: `payerFsp` = inbound destination, `payeeFsp` = inbound source, the amount, `ilpPacket` and `condition` copied, the fresh transfer id, and expiration = now + 600000 ms. |
| PostTransfers.PostTransfers | src/postTransfers/index.js:11-56 | It is sent iff the payload is readable, and accepted iff the reply is 202. Every other outcome is swallowed. |
| PostTransfers.PartiesFollowRouting | src/postTransfers/index.js:18-34 | The payer and payee in the body are the FSPs in the outbound source and destination headers. |
| PostQuotes.BearerToken | src/postQuotes/index.js:64 | The Authorization header is `Bearer {{`, then the destination FSP with its ASCII letters upper-cased, then `_BEARER_TOKEN}}`. |
| PostQuotes.QuoteHeaders | src/postQuotes/index.js:56-66 | Source and destination are swapped. The signature and `traceparent` are passed through. The bearer placeholder names the destination. No header outside these and the fixed Accept, Content-Type and Date is sent. |
| PostQuotes.PartyIdInfo | src/postQuotes/index.js:19-23 | Exactly the three party-id fields, each copied from the given party. |
| PostQuotes.PayerParty | src/postQuotes/index.js:18-31 | The payer has exactly a `partyIdInfo` read from the flat `payer` fields and the fixed personal information. |
| PostQuotes.PayeeParty | src/postQuotes/index.js:32-40 | The payee has exactly a `partyIdInfo` read from `payee.partyIdInfo`, and its own name and personal information. |
| PostQuotes.QuoteAmount | src/postQuotes/index.js:42-45 | Exactly the requested amount and currency, each copied. |
| PostQuotes.QuoteTransactionType | src/postQuotes/index.js:46-50 | Exactly PAYMENT, initiated by PAYEE, with the requested `initiatorType`. |
| PostQuotes.QuoteShape | src/postQuotes/index.js:14-52 | The quote request body has exactly nine fields, and its payer and payee are the two parties read from the payload. |
| PostQuotes.QuoteRequest | src/postQuotes/index.js:10-74 | It is built iff the payload and its payer, payee, payee `partyIdInfo`, amount and transaction type are all readable and the destination header is present. It is then a POST to the endpoint + `/quotes` with the quote body and headers. |
| PostQuotes.PostQuotes | src/postQuotes/index.js:76-84 | It is sent iff the request could be built, and accepted iff the reply is 202. |
| PostQuotes.QuoteIdentity | src/postQuotes/index.js:15-17 | `quoteId` and `transactionId` are the fresh ids. `transactionRequestId` and note are copied from the payload. |
| PostQuotes.QuoteParties | src/postQuotes/index.js:18-40 | The payer's party id comes from the flat `payer` fields, with fixed personal information. The payee's comes from `payee.partyIdInfo`, with its name and personal information copied. |
| PostQuotes.QuoteTerms | src/postQuotes/index.js:41-50 | The amount type is SEND and the amount and currency are copied. The transaction type is PAYMENT initiated by PAYEE, with the payload's `initiatorType`. |
| GetAuthorizations.AuthorizationUrl | src/getAuthorizations/index.js:11 | The URL is `{endpoint}/authorizations/{id}?authenticationType=OTP&retriesLeft=3&amount={amount}&currency={currency}`. It throws iff the payload or its `transferAmount` is missing. |
| GetAuthorizations.AuthorizationHeaders | src/getAuthorizations/index.js:16-24 | Source and destination are swapped and `traceparent` is copied. The authorisations media types and Date are fixed. No signature, and no other header, is sent. |
| GetAuthorizations.GetAuthorizations | src/getAuthorizations/index.js:10-35 | The call rejects iff the URL cannot be built. Otherwise a bodiless GET to that URL is sent, and accepted iff the reply is 202. |
| GetAuthorizations.TargetRoundTrip | src/getAuthorizations/index.js:11 | Parsing the path and query gives back the id, amount and currency, provided none contains '?' and the amount and currency contain no '&'. |
| PayerMetadata.RoutePath | src/payer/handler.js:54 | The rewritten path contains no '{' and no '}' and adds no character except ':'. A path with neither brace is unchanged. |
| PayerMetadata.RoutePathMarksParameters | src/payer/handler.js:54 | A path without '}' keeps its length, and each character stays in place, with '{' turned into ':'. |
| PayerMetadata.PlainPathKept | src/payer/handler.js:54 | A path with neither brace is listed as `localhost` followed by the path itself. |
| Text.ReplaceCharAppend | src/payer/handler.js:54 | Replacing a character in `a + b` is replacing it in `a` and in `b`. |
| Text.RemoveCharAppend | src/payer/handler.js:54 | Removing a character from `a + b` is removing it from `a` and from `b`. |
| PayerMetadata.RoutePathAppend | src/payer/handler.js:54 | The rewrite of a concatenation is the concatenation of the rewrites, so order is kept. |
| PayerMetadata.RoutePathDropsBrace | src/payer/handler.js:54 | A '}' is removed and contributes nothing: `a}b` is rewritten as `a` followed by `b`. |
| PayerMetadata.PathExample | src/payer/handler.js:54 | `/{id}` becomes `/:id`. |
| PayerMetadata.ApiRoutes | src/payer/handler.js:49-53 | It keeps exactly the routes that have an id and the tag "api". |
| PayerMetadata.UrlsOfApiRoutes | src/payer/handler.js:49-55 | Filtering first, then recording, gives the same directory as skipping the unlisted routes. |
| PayerMetadata.UrlsKeys | src/payer/handler.js:47-56 | The directory's ids are exactly those of the listed routes. |
| PayerMetadata.UrlsLastWins | src/payer/handler.js:53-55 | An id maps to the URL of the last listed route with that id. |
| PayerMetadata.DirectoryExample | src/payer/handler.js:49-55 | A route without the "api" tag is not listed. |
| PayerMetadata.ExtractUrls | src/payer/handler.js:47-57 | The loop over the filtered routes computes the directory `UrlsOf(routes)`. |
| PayerMetadata.Metadata | src/payer/handler.js:59-64 | It answers 200 with directory "localhost" and a URL table keyed by exactly the listed ids. |
| PayerHandler.QuoteBranch | src/payer/handler.js:245-259 | Reject iff the rejected range selects the amount. Otherwise OTP iff the OTP range selects it. Otherwise Transfer. An error is returned exactly when a range test throws. |
| PayerHandler.TransfersCondition | src/payer/handler.js:43 | A non-empty configured condition is used as given; an unset or empty one gives the default condition. |
| PayerHandler.RejectTakesPrecedence | src/payer/handler.js:245-257 | An amount in both ranges is rejected. |
| PayerHandler.QuoteBranchExamples | src/payer/handler.js:245-259 | With the ranges "10-20" and "50-60", the amount 15 is rejected, 55 goes to OTP and 30 is transferred. |
| PayerHandler.UnsetRejectedRangeFaults | src/payer/handler.js:245 | With a truthy amount, an unset rejected range ends the task with an exception. |
| PayerHandler.QuoteAnswerTask | src/payer/handler.js:241-259 | The task fails iff the payload or its `transferAmount` is missing or a range test throws. Otherwise it takes exactly one action, matching the branch. Reject: a REJECTED status update to the cached transaction request, with the continuation untouched. OTP: exactly the delivery of `getAuthorizations` for the cached transaction request id, a GET accepted iff 202. Transfer: exactly the delivery of `postTransfers` for the quote answer, carrying the quote's amount and accepted iff 202. |
| PayerHandler.CacheKey | src/payer/handler.js:153 | An entry is stored iff its key is a string or a number, under the key's text. |
| PayerHandler.QuoteKey | src/payer/handler.js:145-153 | A quote request is stored iff the payload is readable and its `quoteId` is a string or a number, under the id's text. |
| PayerHandler.QuoteResponseBody | src/payer/handler.js:155-163 | The quote answer has exactly four fields: the requested amount and currency, each echoed; the configured ILP packet and condition; and an expiration ten seconds after now. |
| PayerHandler.ProtectedHeader | src/payer/handler.js:167-174 | The protected header has exactly six fields: `alg` RS256, source = inbound destination, destination = inbound source (each as text, so a missing one reads "undefined"), URI `/quotes/{quoteId}`, method PUT and an empty Date. |
| PayerHandler.SignatureObject | src/payer/handler.js:175-178 | The signature object has exactly the configured signature and the base64url of the JSON protected header. |
| PayerHandler.QuoteAnswerHeaders | src/payer/handler.js:181-191 | Source and destination are swapped. The URI is `/quotes/{quoteId}` and the method is PUT. The signature header is the given JSON. Content-Type is the quotes media type and Date is now. Trace headers are copied only when non-empty. No Accept header is sent. |
| PayerHandler.QuoteAnswerHeaderNames | src/payer/handler.js:181-191 | No header outside those nine is sent. |
| PayerHandler.QuoteAnswer | src/payer/handler.js:166-200 | It is a PUT to the quotes endpoint + `/quotes/{quoteId}`. The signature header is the JSON of the signature object. The body is the quote answer. |
| PayerHandler.QuoteAnswerEchoesAmount | src/payer/handler.js:155-163 | The answer echoes the requested amount and currency. It carries the configured condition and ILP packet and expires ten seconds after now. |
| PayerHandler.SignedHeaderMatchesSent | src/payer/handler.js:167-188 | When the inbound request has both routing headers, the signed protected header names the same source, destination, URI and method as the quote answer's headers, whatever the signature. |
| PayerHandler.QuoteRequestTask | src/payer/handler.js:141-218 | The task fails iff the quote id cannot be stored or the amount is missing. Otherwise it sends exactly the quote answer, accepted iff the reply is 202. |
| PayerHandler.AuthorizedPayload | src/payer/handler.js:384-388 | The result is an object with the payload's own fields plus exactly `transferAmount`, `condition` and `ilpPacket`. These three are overridden by the stored amount and the configured values; every other field is the payload's. |
| PayerHandler.AuthorizationTaskAsWritten | src/payer/handler.js:390 | As written, the transfer is built from the raw inbound payload. |
| PayerHandler.AuthorizationTask | src/payer/handler.js:384-390 | The transfer always goes out, and it is exactly the transfer prepare of `postTransfers` built from the merged payload: POST to `/transfers`, the swapped routing headers, the fresh transferId, the parties and the expiration. It carries the stored amount and the configured condition and ILP packet, and is accepted iff the reply is 202. |
| PayerHandler.AsWrittenTransferLosesAmount | src/payer/handler.js:384-390 | For an authorisation answer with no amount, the as-written transfer has no amount while the intended one has the stored amount. For a null payload the as-written transfer is not sent while the intended one is. |
| PayerHandler.PayerFsp.constructor | src/payer/handler.js:27-45 | The stores start empty, the stored amount starts as `{}`, and the stores are consistent. |
| PayerHandler.PayerFsp.Record | src/payer/handler.js:79-85 | The id's callback entry becomes `{headers, data}` and its correlation entry the payload. Every other id is unchanged. Consistency is kept. |
| PayerHandler.PayerFsp.PutParticipantsByTypeId | src/payer/handler.js:67-90 | It records the callback under the id and answers 200. |
| PayerHandler.PayerFsp.PutPartiesByTypeId | src/payer/handler.js:93-116 | It records the callback under the id and answers 200. |
| PayerHandler.PayerFsp.PutPartiesByTypeIdAndError | src/payer/handler.js:118-130 | It records the callback under the id and answers 200. |
| PayerHandler.PayerFsp.PostQuotes | src/payer/handler.js:133-221 | It answers 202. It stores the inbound request under the quote id when that id is storable, and otherwise changes nothing. Its task is `QuoteRequestTask`. It keeps the class invariant. |
| PayerHandler.PayerFsp.PutQuotesById | src/payer/handler.js:223-263 | It answers 200 and records the callback. When the payload is readable, the stored amount becomes the payload's `transferAmount`. Its task is `QuoteAnswerTask`. Consistency is kept. |
| PayerHandler.PayerFsp.PutQuotesByIdAndError | src/payer/handler.js:265-277 | It records the callback under the id and answers 200. |
| PayerHandler.PayerFsp.PutTransfersById | src/payer/handler.js:280-305 | It records the callback under the id and answers 200. |
| PayerHandler.PayerFsp.PutTransfersByIdError | src/payer/handler.js:307-329 | It records the callback under the id and answers 200. |
| PayerHandler.PayerFsp.GetCorrelationId | src/payer/handler.js:331-346 | It answers 202 with the correlation entry if there is one, and removes nothing. |
| PayerHandler.PayerFsp.GetRequestById | src/payer/handler.js:348-362 | It answers 200 with the stored request, if any, and removes exactly that entry. It keeps the class invariant. |
| PayerHandler.PayerFsp.GetCallbackById | src/payer/handler.js:364-378 | It answers 200 with the stored callback, if any, and removes exactly that entry. A callback returned has the same payload as the id's correlation entry. Consistency is kept. |
| PayerHandler.PayerFsp.PutAuthorizations | src/payer/handler.js:380-394 | It answers 200. Its task is the corrected `AuthorizationTask` (see Findings): the transfer is prepared from the merged payload with the stored amount. |
| PayerHandler.ReadRequestTwice | src/payer/handler.js:355-357 | A second read of the same id finds nothing. |
| PayerHandler.QuoteThenAuthorize | src/payer/handler.js:384-390 | With line 390 corrected (see Findings), the transfer set off by the authorisation answer after a quote answer is sent with the quote answer's `transferAmount`. |

## Left out

- Logger, `console.log` and the Metrics histograms are not modelled. They have no effect on what is stored, sent or answered.
- The HTTP client (`sendRequest`), `https.Agent` and `request.span` are not modelled. A send is abstract, and its reply (a status or a transport failure) is an input.
- The axios `transformRequest` that deletes the client's default Accept header is not modelled. An explicit Accept header is kept as written.
- uuid generation, `Date`, `toISOString`/`toUTCString`, `JSON.stringify` and `base64url.encode` are parameters of the model (a fresh id, `Clock`, `Codec`). Outbound bodies are JavaScript values, not their JSON text; key order and the omission of undefined fields by JSON are not modelled.
- NodeCache TTL, eviction, statistics and cloning are not modelled. Each store is a map. Stored values are immutable in the model, so cloning changes nothing.
- Concurrency is not modelled. Each detached task runs to completion right after its handler, so interleaving of concurrent handlers is not modelled.
- Environment variables are not read. Endpoints, ranges, condition, ILP packet and signature are `Settings`. `TransfersCondition` states how the condition defaults; the long default ILP packet follows the same rule and is configuration only.
- `requestsCache` belongs to a transaction-requests handler that is not part of this model. Only its lookup of `transactionRequestId` appears, as a map parameter.
- Decimal.ParseDecimal: `parseFloat` is read exactly on decimal text with an optional sign and one point. Exponents, `Infinity`, surrounding whitespace and the parse of a leading numeric prefix of other text ("12abc") read as NaN here, and binary floating point rounding is not modelled. A JavaScript number is represented by the text `String(n)` gives for it.
- PayerHandler.AuthorizedPayload: a payload that is not an object contributes no field. `Object.assign` would copy the index properties of an array or string payload.
- PostQuotes.QuoteBody: its own contract only says it is an object. Its field names and values are stated by `QuoteShape`, `QuoteIdentity`, `QuoteParties` and `QuoteTerms`.
- AmountRanges.IsRejectedTransactionFlow and AmountRanges.IsOTPVerificationFlow have no contract of their own. They are `IsInRange` on their configured range, and `FlowsAreIndependent` and `QuoteBranch` state their use.
- Several names in `src/payer/handler.js` are undefined or broken:
  - `quotesEndpoint`, `signature`, `https` and `sendRequest` are undefined, and `Metrics` is declared twice, so the file would not load as written;
  - the model reads the two values as configuration and the send as the abstract send.
- Extra arguments are ignored. The explicit fourth argument `true` to `putTransactionRequest` is ignored, as in JavaScript. The `type` path parameter is only logged.
- PostQuotes.BearerToken: only the ASCII letters are upper-cased; FSP ids are taken to be ASCII. JavaScript's `toUpperCase` maps all of Unicode and can lengthen a string (`ß` becomes `SS`), which the length clause does not allow for.
- PayerHandler.PayerFsp.PutAuthorizations: its task follows the corrected line 390 of `src/payer/handler.js` (the Findings row). The code as written builds the transfer from the raw authorisation payload; that behaviour is `AuthorizationTaskAsWritten`.
- PayerHandler.QuoteThenAuthorize: it holds for the corrected line 390 only. As written, the transfer carries the authorisation payload's own `transferAmount`, usually undefined (`AsWrittenTransferLosesAmount`).

## Findings

| source | as written | input that shows it | evidently intended | confidence | as-written member | corrected member |
|---|---|---|---|---|---|---|
| src/payer/handler.js:390 | `postTransfers(request, payload)` passes the merged payload as a second argument, but `postTransfers` reads only `{ payload, headers }` from its first argument (src/postTransfers/index.js:11). | After a quote answer for 100 USD, an authorisation answer `{authenticationInfo: {}, responseType: "ENTERED"}` arrives. The transfer is sent with no amount, condition or ILP packet; with a null payload it is not sent at all. | The transfer is built from the merged payload, so it carries the stored amount and the configured condition and ILP packet. | likely; not executed | PayerHandler.AuthorizationTaskAsWritten, shown by PayerHandler.AsWrittenTransferLosesAmount | PayerHandler.AuthorizationTask |
