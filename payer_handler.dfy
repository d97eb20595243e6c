/** The payer FSP of the simulator: three correlation stores that every
    inbound callback writes and the test harness reads back, the amount of
    the last accepted quote, and the detached tasks a quote, a quote answer
    and an authorisation set off. */
module PayerHandler {
  import opened Values
  import opened Outbound
  import opened AmountRanges
  import opened Decimal
  import opened TransactionRequests
  import PostTransfers
  import GetAuthorizations

  /** The fulfilment condition used when none is configured. */
  const DefaultTransfersCondition := "HOr22-H3AfTDHrSkPjJtVPRdKouuMkDXTR4ejlQa8Ks"

  /** `process.env.TRANSFERS_CONDITION || default`: an unset or empty
      variable gives the default condition. */
  function TransfersCondition(env: Option<string>): (c: string)
    ensures c != ""
    ensures env.Some? && env.value != "" ==> c == env.value
    ensures env.None? || env.value == "" ==> c == DefaultTransfersCondition
  {
    if Truthy(OptionalStr(env)) then env.value else DefaultTransfersCondition
  }

  /** How long a returned quote stays valid, in milliseconds. */
  const QuoteExpiration := 10000

  const QuotesMediaType := "application/vnd.interoperability.quotes+json;version=1.0"

  /** The configuration the handlers read: the two amount ranges, the
      endpoints of the services called, the fixed test values of a quote
      answer and the signature placed in its FSPIOP-Signature header. */
  datatype Settings = Settings(
    ranges: FlowRanges,
    quotesEndpoint: string,
    transactionRequestsEndpoint: string,
    transfersEndpoint: string,
    authorizationsEndpoint: string,
    transfersCondition: string,
    transfersIlpPacket: string,
    signature: Value)

  /** A stored inbound request: its headers and its payload. */
  datatype Envelope = Envelope(headers: Headers, data: Value)

  /** The outbound work a detached task did, in order. */
  datatype Action =
    | UpdateTransactionRequest(delivery: Delivery, callback: CallbackUse)
    | RequestAuthorization(delivery: Delivery)
    | PrepareTransfer(delivery: Delivery)
    | ReturnQuote(delivery: Delivery)

  /** A detached task run to completion: what it sent, and whether it ended
      with an uncaught exception (a rejected promise nobody awaits). */
  datatype Task = Task(actions: seq<Action>, faulted: bool)

  /** The three ways a quote answer continues. */
  datatype Branch = Reject | Authorize | Transfer

  /** The decision of `putQuotesById`: the rejected range is tested first,
      then the OTP range; a throwing test (an unset range) ends the task. */
  function QuoteBranch(amount: Value, ranges: FlowRanges): (r: Result<Branch>)
    ensures r == Ok(Reject) <==> Selected(IsRejectedTransactionFlow(amount, ranges))
    ensures r == Ok(Authorize) <==>
      && IsRejectedTransactionFlow(amount, ranges).Ok?
      && !Selected(IsRejectedTransactionFlow(amount, ranges))
      && Selected(IsOTPVerificationFlow(amount, ranges))
    ensures r == Ok(Transfer) <==>
      && IsRejectedTransactionFlow(amount, ranges).Ok?
      && !Selected(IsRejectedTransactionFlow(amount, ranges))
      && IsOTPVerificationFlow(amount, ranges).Ok?
      && !Selected(IsOTPVerificationFlow(amount, ranges))
    ensures r.Err? <==>
      || IsRejectedTransactionFlow(amount, ranges).Err?
      || (!Selected(IsRejectedTransactionFlow(amount, ranges)) && IsOTPVerificationFlow(amount, ranges).Err?)
  {
    var rejected :- IsRejectedTransactionFlow(amount, ranges);
    if rejected == Some(true) then Ok(Reject)
    else
      var otp :- IsOTPVerificationFlow(amount, ranges);
      if otp == Some(true) then Ok(Authorize) else Ok(Transfer)
  }

  /** An amount in both ranges is rejected: the rejected range wins. */
  lemma RejectTakesPrecedence(amount: Value, ranges: FlowRanges)
    requires Selected(IsRejectedTransactionFlow(amount, ranges))
    requires Selected(IsOTPVerificationFlow(amount, ranges))
    ensures QuoteBranch(amount, ranges) == Ok(Reject)
  {
  }

  lemma ThirtyText()
    ensures NatText(30) == "30"
  {
    TwoDigitText(30);
  }

  /** With the rejected range "10-20" and the OTP range "50-60", the amount
      15 is rejected, 55 needs an OTP and 30 is transferred. */
  lemma QuoteBranchExamples()
    ensures QuoteBranch(Str("15"), FlowRanges(Some("10-20"), Some("50-60"))) == Ok(Reject)
    ensures QuoteBranch(Str("55"), FlowRanges(Some("10-20"), Some("50-60"))) == Ok(Authorize)
    ensures QuoteBranch(Str("30"), FlowRanges(Some("10-20"), Some("50-60"))) == Ok(Transfer)
  {
    RejectExample();
    AuthorizeExample();
    TransferExample();
  }

  lemma RejectExample()
    ensures QuoteBranch(Str("15"), FlowRanges(Some("10-20"), Some("50-60"))) == Ok(Reject)
  {
    FifteenInTenToTwenty();
    WholeNumberRange(15, 10, 20);
  }

  lemma AuthorizeExample()
    ensures QuoteBranch(Str("55"), FlowRanges(Some("10-20"), Some("50-60"))) == Ok(Authorize)
  {
    FifteenInTenToTwenty();
    FiftyFiveInFiftyToSixty();
    WholeNumberRange(55, 10, 20);
    WholeNumberRange(55, 50, 60);
  }

  lemma TransferExample()
    ensures QuoteBranch(Str("30"), FlowRanges(Some("10-20"), Some("50-60"))) == Ok(Transfer)
  {
    FifteenInTenToTwenty();
    FiftyFiveInFiftyToSixty();
    ThirtyText();
    WholeNumberRange(30, 10, 20);
    WholeNumberRange(30, 50, 60);
  }

  /** With the rejected range unset, any truthy amount ends the task with
      an exception before a request is sent. */
  lemma UnsetRejectedRangeFaults(amount: Value, otp: Option<string>)
    requires Truthy(amount)
    ensures QuoteBranch(amount, FlowRanges(None, otp)).Err?
  {
  }

  /** The detached task of `putQuotesById`, after the stores are written.
      Reading `payload.transferAmount.amount` throws when either part is
      missing. */
  function QuoteAnswerTask(settings: Settings, headers: Headers, payload: Value,
                           requestsCache: map<string, string>, transferId: string,
                           clock: Clock, reply: SendOutcome): (t: Task)
    ensures t.faulted <==>
      || Nullish(payload)
      || Nullish(Field(payload, "transferAmount"))
      || QuoteBranch(Field(Field(payload, "transferAmount"), "amount"), settings.ranges).Err?
    ensures t.faulted ==> t.actions == []
    ensures !t.faulted ==> |t.actions| == 1
    ensures !t.faulted ==>
      var branch := QuoteBranch(Field(Field(payload, "transferAmount"), "amount"), settings.ranges).value;
      var trxId := Get(requestsCache, "transactionRequestId");
      var a := t.actions[0];
      && (a.UpdateTransactionRequest? <==> branch == Reject)
      && (a.RequestAuthorization? <==> branch == Authorize)
      && (a.PrepareTransfer? <==> branch == Transfer)
      && (a.UpdateTransactionRequest? ==>
            && a.callback == NotInvoked
            && a.delivery == Deliver(TransactionRequestCallback(headers, payload, trxId, Some(Rejected),
                                       settings.transactionRequestsEndpoint, clock), reply, OK))
      && (a.RequestAuthorization? ==>
            && Ok(a.delivery) == GetAuthorizations.GetAuthorizations(headers, payload, trxId,
                                   settings.authorizationsEndpoint, clock, reply)
            && a.delivery.Sent?
            && a.delivery.request.url ==
                 GetAuthorizations.AuthorizationUrl(settings.authorizationsEndpoint, trxId, payload).value)
      && (a.PrepareTransfer? ==>
            && a.delivery == PostTransfers.PostTransfers(headers, payload, transferId,
                               settings.transfersEndpoint, clock, reply)
            && a.delivery.Sent?
            && BodyField(a.delivery.request, "amount") == Field(payload, "transferAmount"))
  {
    if Nullish(payload) then Task([], true)
    else
      var transferAmount := Field(payload, "transferAmount");
      if Nullish(transferAmount) then Task([], true)
      else
        var trxId := Get(requestsCache, "transactionRequestId");
        match QuoteBranch(Field(transferAmount, "amount"), settings.ranges)
        case Err(_) => Task([], true)
        case Ok(Reject) =>
          RejectedNeverContinues(payload);
          var built := TransactionRequestCallback(headers, payload, trxId, Some(Rejected),
                                                  settings.transactionRequestsEndpoint, clock);
          Task([UpdateTransactionRequest(Deliver(built, reply, OK), NotInvoked)], false)
        case Ok(Authorize) =>
          var d := GetAuthorizations.GetAuthorizations(headers, payload, trxId,
                                                       settings.authorizationsEndpoint, clock, reply);
          Task([RequestAuthorization(d.value)], false)
        case Ok(Transfer) =>
          Task([PrepareTransfer(PostTransfers.PostTransfers(headers, payload, transferId,
                                                            settings.transfersEndpoint, clock, reply))], false)
  }

  /** The key NodeCache stores an entry under: a string, or a number as its
      text; any other key makes `set` throw. */
  function CacheKey(v: Value): (k: Option<string>)
    ensures k.Some? <==> v.Str? || v.Num?
    ensures k.Some? ==> k.value == ToText(v)
  {
    match v
    case Str(s) => Some(s)
    case Num(r) => Some(r)
    case _ => None
  }

  /** The key a quote request is stored under, when it can be stored. */
  function QuoteKey(payload: Value): (k: Option<string>)
    ensures k.Some? <==> !Nullish(payload) && (Field(payload, "quoteId").Str? || Field(payload, "quoteId").Num?)
    ensures k.Some? ==> k.value == ToText(Field(payload, "quoteId"))
  {
    if Nullish(payload) then None else CacheKey(Field(payload, "quoteId"))
  }

  /** The quote answer: the requested amount echoed back with the fixed
      test condition and ILP packet, valid for ten seconds. */
  function QuoteResponseBody(settings: Settings, amount: Value, clock: Clock): (b: Value)
    requires !Nullish(amount)
    ensures b.Obj? && b.fields.Keys == {"transferAmount", "expiration", "ilpPacket", "condition"}
    ensures var echoed := b.fields["transferAmount"];
      && echoed.Obj? && echoed.fields.Keys == {"amount", "currency"}
      && forall k :: k in echoed.fields ==> echoed.fields[k] == Field(amount, k)
    ensures b.fields["expiration"] == Str(clock.iso(clock.nowMs + QuoteExpiration))
    ensures b.fields["ilpPacket"] == Str(settings.transfersIlpPacket)
    ensures b.fields["condition"] == Str(settings.transfersCondition)
  {
    Obj(map[
      "transferAmount" := Obj(map[
        "amount" := Field(amount, "amount"),
        "currency" := Field(amount, "currency")]),
      "expiration" := Str(clock.iso(clock.nowMs + QuoteExpiration)),
      "ilpPacket" := Str(settings.transfersIlpPacket),
      "condition" := Str(settings.transfersCondition)])
  }

  /** The JWS protected header of the quote answer. Its values are template
      strings, so a missing header reads "undefined". */
  function ProtectedHeader(headers: Headers, quoteId: Value): (v: Value)
    ensures v.Obj?
    ensures v.fields.Keys ==
      {"alg", "FSPIOP-Source", "FSPIOP-Destination", "FSPIOP-URI", "FSPIOP-HTTP-Method", "Date"}
    ensures v.fields["alg"] == Str("RS256") && v.fields["Date"] == Str("")
    ensures v.fields["FSPIOP-Source"] == Str(Interpolate(Get(headers, "fspiop-destination")))
    ensures v.fields["FSPIOP-Destination"] == Str(Interpolate(Get(headers, "fspiop-source")))
    ensures v.fields["FSPIOP-URI"] == Str("/quotes/" + ToText(quoteId))
    ensures v.fields["FSPIOP-HTTP-Method"] == Str("PUT")
  {
    Obj(map[
      "alg" := Str("RS256"),
      "FSPIOP-Source" := Str(Interpolate(Get(headers, "fspiop-destination"))),
      "FSPIOP-Destination" := Str(Interpolate(Get(headers, "fspiop-source"))),
      "FSPIOP-URI" := Str("/quotes/" + ToText(quoteId)),
      "FSPIOP-HTTP-Method" := Str("PUT"),
      "Date" := Str("")])
  }

  /** The object whose JSON is the FSPIOP-Signature header: the configured
      signature and the base64url of the JSON protected header. */
  function SignatureObject(settings: Settings, codec: Codec, headers: Headers, quoteId: Value): (v: Value)
    ensures v.Obj? && v.fields.Keys == {"signature", "protectedHeader"}
    ensures v.fields["signature"] == settings.signature
    ensures v.fields["protectedHeader"] == Str(codec.base64url(codec.json(ProtectedHeader(headers, quoteId))))
  {
    Obj(map[
      "signature" := settings.signature,
      "protectedHeader" := Str(codec.base64url(codec.json(ProtectedHeader(headers, quoteId))))])
  }

  /** The headers of the quote answer. */
  function QuoteAnswerHeaders(headers: Headers, quoteId: Value, signature: string,
                              clock: Clock): (h: map<string, string>)
    ensures AddressedBack(headers, h)
    ensures Get(h, "FSPIOP-URI") == Some("/quotes/" + ToText(quoteId))
    ensures Get(h, "FSPIOP-HTTP-Method") == Some("PUT")
    ensures Get(h, "FSPIOP-Signature") == Some(signature)
    ensures Get(h, "Content-Type") == Some(QuotesMediaType)
    ensures Get(h, "Date") == Some(clock.utc(clock.nowMs))
    ensures Get(h, "traceparent") == IfPresent(headers, "traceparent")
    ensures Get(h, "tracestate") == IfPresent(headers, "tracestate")
    ensures "Accept" !in h
  {
    var base := CallbackBase(QuotesMediaType, clock.utc(clock.nowMs), "PUT", "/quotes/" + ToText(quoteId));
    RoutedBack(WithHeader(base, "FSPIOP-Signature", Some(signature)), headers)
  }

  /** The quote answer carries no header besides those. */
  lemma QuoteAnswerHeaderNames(headers: Headers, quoteId: Value, signature: string, clock: Clock)
    ensures QuoteAnswerHeaders(headers, quoteId, signature, clock).Keys <=
      {"Content-Type", "Date", "FSPIOP-Signature", "FSPIOP-HTTP-Method", "FSPIOP-URI",
       "FSPIOP-Source", "FSPIOP-Destination", "traceparent", "tracestate"}
  {
  }

  /** The PUT of the quote answer to `/quotes/{quoteId}`. */
  function QuoteAnswer(settings: Settings, codec: Codec, headers: Headers, payload: Value,
                       clock: Clock): (req: HttpRequest)
    requires !Nullish(payload) && !Nullish(Field(payload, "amount"))
    ensures req.verb == "PUT"
    ensures req.url == settings.quotesEndpoint + "/quotes/" + ToText(Field(payload, "quoteId"))
    ensures req.body == QuoteResponseBody(settings, Field(payload, "amount"), clock)
    ensures req.headers == QuoteAnswerHeaders(headers, Field(payload, "quoteId"),
      codec.json(SignatureObject(settings, codec, headers, Field(payload, "quoteId"))), clock)
  {
    var quoteId := Field(payload, "quoteId");
    HttpRequest("PUT", settings.quotesEndpoint + "/quotes/" + ToText(quoteId),
                QuoteAnswerHeaders(headers, quoteId, codec.json(SignatureObject(settings, codec, headers, quoteId)), clock),
                QuoteResponseBody(settings, Field(payload, "amount"), clock))
  }

  /** The detached task of `postQuotes`. A payload without a storable
      `quoteId` or without an `amount` throws before the `try`. */
  function QuoteRequestTask(settings: Settings, codec: Codec, headers: Headers, payload: Value,
                            clock: Clock, reply: SendOutcome): (t: Task)
    ensures t.faulted <==> QuoteKey(payload).None? || Nullish(Field(payload, "amount"))
    ensures t.faulted ==> t.actions == []
    ensures !t.faulted ==>
      && t.actions == [ReturnQuote(Dispatch(QuoteAnswer(settings, codec, headers, payload, clock), reply, ACCEPTED))]
      && (t.actions[0].delivery.accepted <==> reply == Status(ACCEPTED))
  {
    if QuoteKey(payload).None? || Nullish(Field(payload, "amount")) then Task([], true)
    else Task([ReturnQuote(Dispatch(QuoteAnswer(settings, codec, headers, payload, clock), reply, ACCEPTED))], false)
  }

  /** The quote answer's body echoes the requested amount and currency and
      carries the configured condition and ILP packet. */
  lemma QuoteAnswerEchoesAmount(settings: Settings, codec: Codec, headers: Headers,
                                payload: Value, clock: Clock)
    requires !Nullish(payload) && !Nullish(Field(payload, "amount"))
    ensures var body := QuoteAnswer(settings, codec, headers, payload, clock).body;
      var amount := Field(payload, "amount");
      && body.fields["transferAmount"].fields["amount"] == Field(amount, "amount")
      && body.fields["transferAmount"].fields["currency"] == Field(amount, "currency")
      && body.fields["condition"] == Str(settings.transfersCondition)
      && body.fields["ilpPacket"] == Str(settings.transfersIlpPacket)
      && body.fields["expiration"] == Str(clock.iso(clock.nowMs + QuoteExpiration))
  {
  }

  /** The signed protected header names the same parties and resource as
      the headers actually sent, when the inbound request carried both
      routing headers. */
  lemma SignedHeaderMatchesSent(headers: Headers, quoteId: Value, signature: string, clock: Clock)
    requires "fspiop-source" in headers && "fspiop-destination" in headers
    ensures var sent := QuoteAnswerHeaders(headers, quoteId, signature, clock);
      var signed := ProtectedHeader(headers, quoteId).fields;
      && signed["FSPIOP-Source"] == Str(sent["FSPIOP-Source"])
      && signed["FSPIOP-Destination"] == Str(sent["FSPIOP-Destination"])
      && signed["FSPIOP-URI"] == Str(sent["FSPIOP-URI"])
      && signed["FSPIOP-HTTP-Method"] == Str(sent["FSPIOP-HTTP-Method"])
  {
    var sent := QuoteAnswerHeaders(headers, quoteId, signature, clock);
    assert Get(sent, "FSPIOP-Source") == Some(headers["fspiop-destination"]);
    assert Get(sent, "FSPIOP-Destination") == Some(headers["fspiop-source"]);
  }

  /** `Object.assign({}, payload, { transferAmount, condition, ilpPacket })`:
      the own fields of an object payload, then the three overrides. A
      payload that is not an object contributes no field. */
  function AuthorizedPayload(payload: Value, stored: Value, settings: Settings): (m: Value)
    ensures m.Obj?
    ensures m.fields.Keys == {"transferAmount", "condition", "ilpPacket"} +
                             (if payload.Obj? then payload.fields.Keys else {})
    ensures m.fields["transferAmount"] == stored
    ensures m.fields["condition"] == Str(settings.transfersCondition)
    ensures m.fields["ilpPacket"] == Str(settings.transfersIlpPacket)
    ensures forall k :: k in m.fields && k !in {"transferAmount", "condition", "ilpPacket"} ==>
      m.fields[k] == Field(payload, k)
  {
    var own := if payload.Obj? then payload.fields else map[];
    Obj(own + map[
      "transferAmount" := stored,
      "condition" := Str(settings.transfersCondition),
      "ilpPacket" := Str(settings.transfersIlpPacket)])
  }

  /** The detached task of `putAuthorizations` as written: the merged
      payload is passed as a second argument, which `postTransfers` does
      not take, so the transfer is built from the raw inbound payload. */
  function AuthorizationTaskAsWritten(settings: Settings, headers: Headers, payload: Value,
                                      stored: Value, transferId: string, clock: Clock,
                                      reply: SendOutcome): (t: Task)
    ensures !t.faulted && |t.actions| == 1 && t.actions[0].PrepareTransfer?
    ensures t.actions[0].delivery ==
      PostTransfers.PostTransfers(headers, payload, transferId, settings.transfersEndpoint, clock, reply)
  {
    Task([PrepareTransfer(PostTransfers.PostTransfers(headers, payload, transferId,
                                                      settings.transfersEndpoint, clock, reply))], false)
  }

  /** The detached task of `putAuthorizations` as intended: the transfer is
      built from the merged payload, so it always goes out and carries the
      amount stored by the quote answer. */
  function AuthorizationTask(settings: Settings, headers: Headers, payload: Value,
                             stored: Value, transferId: string, clock: Clock,
                             reply: SendOutcome): (t: Task)
    ensures !t.faulted && |t.actions| == 1 && t.actions[0].PrepareTransfer?
    ensures var d := t.actions[0].delivery;
      && d.Sent?
      && BodyField(d.request, "amount") == stored
      && BodyField(d.request, "condition") == Str(settings.transfersCondition)
      && BodyField(d.request, "ilpPacket") == Str(settings.transfersIlpPacket)
      && (d.accepted <==> reply == Status(ACCEPTED))
    ensures t.actions[0].delivery ==
      PostTransfers.PostTransfers(headers, AuthorizedPayload(payload, stored, settings), transferId,
                                  settings.transfersEndpoint, clock, reply)
  {
    var merged := AuthorizedPayload(payload, stored, settings);
    Task([PrepareTransfer(PostTransfers.PostTransfers(headers, merged, transferId,
                                                      settings.transfersEndpoint, clock, reply))], false)
  }

  /** An authorisation answer carries no amount, so the transfer the code as
      written prepares has none, where the intended one has the stored
      amount; and a missing payload stops the transfer altogether. */
  lemma AsWrittenTransferLosesAmount(settings: Settings, headers: Headers, transferId: string,
                                     clock: Clock, reply: SendOutcome)
    ensures var payload := Obj(map["authenticationInfo" := Obj(map[]), "responseType" := Str("ENTERED")]);
      var stored := Obj(map["amount" := Str("100"), "currency" := Str("USD")]);
      var asWritten := AuthorizationTaskAsWritten(settings, headers, payload, stored, transferId, clock, reply);
      var intended := AuthorizationTask(settings, headers, payload, stored, transferId, clock, reply);
      && BodyField(asWritten.actions[0].delivery.request, "amount") == Undefined
      && BodyField(intended.actions[0].delivery.request, "amount") == stored
    ensures AuthorizationTaskAsWritten(settings, headers, Null, Obj(map[]), transferId, clock, reply)
              .actions[0].delivery.NotSent?
    ensures AuthorizationTask(settings, headers, Null, Obj(map[]), transferId, clock, reply)
              .actions[0].delivery.Sent?
  {
    var payload := Obj(map["authenticationInfo" := Obj(map[]), "responseType" := Str("ENTERED")]);
    assert Field(payload, "transferAmount") == Undefined;
  }

  /** The payer FSP's state: the three correlation stores and the amount of
      the last quote answer. */
  class PayerFsp {
    const settings: Settings
    var correlationCache: map<string, Value>
    var requestCache: map<string, Envelope>
    var callbackCache: map<string, Envelope>
    var transferAmount: Value

    /** Every stored callback agrees with the correlation entry of its id:
        the two are always written together, and only the callback store is
        ever emptied. */
    ghost predicate Consistent()
      reads this
    {
      forall id :: id in callbackCache ==>
        id in correlationCache && correlationCache[id] == callbackCache[id].data
    }

    constructor (settings: Settings)
      ensures this.settings == settings
      ensures correlationCache == map[] && requestCache == map[] && callbackCache == map[]
      ensures transferAmount == Obj(map[])
      ensures Consistent()
    {
      this.settings := settings;
      correlationCache, requestCache, callbackCache := map[], map[], map[];
      transferAmount := Obj(map[]);
    }

    /** Store an inbound callback under its id in the callback and
        correlation stores. */
    method Record(id: string, headers: Headers, payload: Value)
      requires Consistent()
      modifies this`callbackCache, this`correlationCache
      ensures callbackCache == old(callbackCache)[id := Envelope(headers, payload)]
      ensures correlationCache == old(correlationCache)[id := payload]
      ensures Consistent()
    {
      callbackCache := callbackCache[id := Envelope(headers, payload)];
      correlationCache := correlationCache[id := payload];
    }

    method PutParticipantsByTypeId(id: string, headers: Headers, payload: Value) returns (code: int)
      requires Consistent()
      modifies this`callbackCache, this`correlationCache
      ensures code == OK
      ensures callbackCache == old(callbackCache)[id := Envelope(headers, payload)]
      ensures correlationCache == old(correlationCache)[id := payload]
      ensures Consistent()
    {
      Record(id, headers, payload);
      code := OK;
    }

    method PutPartiesByTypeId(id: string, headers: Headers, payload: Value) returns (code: int)
      requires Consistent()
      modifies this`callbackCache, this`correlationCache
      ensures code == OK
      ensures callbackCache == old(callbackCache)[id := Envelope(headers, payload)]
      ensures correlationCache == old(correlationCache)[id := payload]
      ensures Consistent()
    {
      Record(id, headers, payload);
      code := OK;
    }

    method PutPartiesByTypeIdAndError(id: string, headers: Headers, payload: Value) returns (code: int)
      requires Consistent()
      modifies this`callbackCache, this`correlationCache
      ensures code == OK
      ensures callbackCache == old(callbackCache)[id := Envelope(headers, payload)]
      ensures correlationCache == old(correlationCache)[id := payload]
      ensures Consistent()
    {
      Record(id, headers, payload);
      code := OK;
    }

    /** `postQuotes`: store the quote request under its quote id, answer
        202 at once, and let the detached task send the quote answer. */
    method PostQuotes(codec: Codec, headers: Headers, payload: Value, clock: Clock, reply: SendOutcome)
      returns (code: int, task: Task)
      requires Consistent()
      modifies this`requestCache
      ensures code == ACCEPTED
      ensures requestCache == match QuoteKey(payload)
        case Some(k) => old(requestCache)[k := Envelope(headers, payload)]
        case None => old(requestCache)
      ensures Consistent()
      ensures task == QuoteRequestTask(settings, codec, headers, payload, clock, reply)
    {
      code := ACCEPTED;
      var key := QuoteKey(payload);
      if key.None? {
        task := Task([], true);
        return;
      }
      requestCache := requestCache[key.value := Envelope(headers, payload)];
      if Nullish(Field(payload, "amount")) {
        task := Task([], true);
        return;
      }
      var answer := QuoteAnswer(settings, codec, headers, payload, clock);
      var delivery := Dispatch(answer, reply, ACCEPTED);
      task := Task([ReturnQuote(delivery)], false);
    }

    /** `putQuotesById`: store the quote answer, remember its amount, answer
        200 at once, and let the detached task reject the transaction
        request, ask for an OTP authorisation or prepare the transfer. */
    method PutQuotesById(id: string, headers: Headers, payload: Value,
                         requestsCache: map<string, string>, transferId: string,
                         clock: Clock, reply: SendOutcome)
      returns (code: int, task: Task)
      requires Consistent()
      modifies this`callbackCache, this`correlationCache, this`transferAmount
      ensures code == OK
      ensures callbackCache == old(callbackCache)[id := Envelope(headers, payload)]
      ensures correlationCache == old(correlationCache)[id := payload]
      ensures transferAmount == if Nullish(payload) then old(transferAmount) else Field(payload, "transferAmount")
      ensures task == QuoteAnswerTask(settings, headers, payload, requestsCache, transferId, clock, reply)
      ensures Consistent()
    {
      code := OK;
      Record(id, headers, payload);
      if Nullish(payload) {
        task := Task([], true);
        return;
      }
      transferAmount := Field(payload, "transferAmount");
      if Nullish(transferAmount) {
        task := Task([], true);
        return;
      }
      var trxId := Get(requestsCache, "transactionRequestId");
      var branch := QuoteBranch(Field(transferAmount, "amount"), settings.ranges);
      if branch.Err? {
        task := Task([], true);
      } else if branch.value == Reject {
        RejectedNeverContinues(payload);
        var delivery, callback := PutTransactionRequest(headers, payload, requestsCache, false, Some(Rejected),
                                                        settings.transactionRequestsEndpoint, clock, reply);
        task := Task([UpdateTransactionRequest(delivery, callback)], false);
      } else if branch.value == Authorize {
        var d := GetAuthorizations.GetAuthorizations(headers, payload, trxId,
                                                     settings.authorizationsEndpoint, clock, reply);
        task := Task([RequestAuthorization(d.value)], false);
      } else {
        var delivery := PostTransfers.PostTransfers(headers, payload, transferId,
                                                    settings.transfersEndpoint, clock, reply);
        task := Task([PrepareTransfer(delivery)], false);
      }
    }

    method PutQuotesByIdAndError(id: string, headers: Headers, payload: Value) returns (code: int)
      requires Consistent()
      modifies this`callbackCache, this`correlationCache
      ensures code == OK
      ensures callbackCache == old(callbackCache)[id := Envelope(headers, payload)]
      ensures correlationCache == old(correlationCache)[id := payload]
      ensures Consistent()
    {
      Record(id, headers, payload);
      code := OK;
    }

    method PutTransfersById(id: string, headers: Headers, payload: Value) returns (code: int)
      requires Consistent()
      modifies this`callbackCache, this`correlationCache
      ensures code == OK
      ensures callbackCache == old(callbackCache)[id := Envelope(headers, payload)]
      ensures correlationCache == old(correlationCache)[id := payload]
      ensures Consistent()
    {
      Record(id, headers, payload);
      code := OK;
    }

    method PutTransfersByIdError(id: string, headers: Headers, payload: Value) returns (code: int)
      requires Consistent()
      modifies this`callbackCache, this`correlationCache
      ensures code == OK
      ensures callbackCache == old(callbackCache)[id := Envelope(headers, payload)]
      ensures correlationCache == old(correlationCache)[id := payload]
      ensures Consistent()
    {
      Record(id, headers, payload);
      code := OK;
    }

    /** `getcorrelationId`: the stored payload, if any, answered with 202;
        nothing is removed. */
    method GetCorrelationId(id: string) returns (code: int, data: Option<Value>)
      ensures code == ACCEPTED
      ensures data.Some? <==> id in correlationCache
      ensures data.Some? ==> data.value == correlationCache[id]
    {
      code := ACCEPTED;
      data := if id in correlationCache then Some(correlationCache[id]) else None;
    }

    /** `getRequestById`: the stored request, if any, answered with 200 and
        removed. */
    method GetRequestById(id: string) returns (code: int, entry: Option<Envelope>)
      requires Consistent()
      modifies this`requestCache
      ensures code == OK
      ensures entry == if id in old(requestCache) then Some(old(requestCache)[id]) else None
      ensures requestCache == old(requestCache) - {id}
      ensures Consistent()
    {
      code := OK;
      entry := if id in requestCache then Some(requestCache[id]) else None;
      requestCache := requestCache - {id};
    }

    /** `getCallbackById`: the stored callback, if any, answered with 200
        and removed. */
    method GetCallbackById(id: string) returns (code: int, entry: Option<Envelope>)
      requires Consistent()
      modifies this`callbackCache
      ensures code == OK
      ensures entry == if id in old(callbackCache) then Some(old(callbackCache)[id]) else None
      ensures callbackCache == old(callbackCache) - {id}
      ensures entry.Some? ==> id in correlationCache && correlationCache[id] == entry.value.data
      ensures Consistent()
    {
      code := OK;
      entry := if id in callbackCache then Some(callbackCache[id]) else None;
      callbackCache := callbackCache - {id};
    }

    /** `putAuthorizations`: answer 200 at once, and let the detached task
        prepare the transfer from the authorisation answer with the stored
        amount and the configured condition and ILP packet. */
    method PutAuthorizations(headers: Headers, payload: Value, transferId: string,
                             clock: Clock, reply: SendOutcome)
      returns (code: int, task: Task)
      ensures code == OK
      ensures task == AuthorizationTask(settings, headers, payload, transferAmount, transferId, clock, reply)
    {
      code := OK;
      var merged := AuthorizedPayload(payload, transferAmount, settings);
      var delivery := PostTransfers.PostTransfers(headers, merged, transferId,
                                                  settings.transfersEndpoint, clock, reply);
      task := Task([PrepareTransfer(delivery)], false);
    }
  }

  /** The diagnostic getters read and delete: a second read of the same id
      finds nothing. */
  method ReadRequestTwice(fsp: PayerFsp, id: string) returns (first: Option<Envelope>, second: Option<Envelope>)
    requires fsp.Consistent()
    modifies fsp
    ensures first == if id in old(fsp.requestCache) then Some(old(fsp.requestCache)[id]) else None
    ensures second == None
  {
    var code;
    code, first := fsp.GetRequestById(id);
    code, second := fsp.GetRequestById(id);
  }

  /** A quote answer followed by the authorisation answer: the transfer the
      authorisation sets off carries the amount of the quote answer. */
  method QuoteThenAuthorize(fsp: PayerFsp, id: string, headers: Headers, quote: Value,
                            authorization: Value, requestsCache: map<string, string>,
                            transferId: string, clock: Clock, reply: SendOutcome)
    returns (task: Task)
    requires fsp.Consistent() && !Nullish(quote)
    modifies fsp
    ensures |task.actions| == 1 && task.actions[0].PrepareTransfer?
    ensures task.actions[0].delivery.Sent?
    ensures BodyField(task.actions[0].delivery.request, "amount") == Field(quote, "transferAmount")
  {
    var code, first := fsp.PutQuotesById(id, headers, quote, requestsCache, transferId, clock, reply);
    code, task := fsp.PutAuthorizations(headers, authorization, transferId, clock, reply);
  }
}
