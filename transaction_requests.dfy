/** The transaction-request status callback: choose the state, build the
    PUT to the transaction-requests service, check the reply and hand over
    to the continuation. */
module TransactionRequests {
  import opened Values
  import opened Outbound
  import opened Decimal

  /** The amount that emulates "transaction request rejected by payer". */
  const InvalidAmountValue: real := 15.15

  const Rejected := "REJECTED"
  const Received := "RECEIVED"
  const MediaType := "application/vnd.interoperability.transactionRequests+json;version=1.0"

  /** `payload && payload.amount && payload.amount.amount`: the short-circuit
      chain never throws; it stops at the first falsy value. */
  function AmountProbe(payload: Value): (v: Value)
    ensures Truthy(payload) && Truthy(Field(payload, "amount")) ==> v == Field(Field(payload, "amount"), "amount")
    ensures Truthy(payload) && !Truthy(Field(payload, "amount")) ==> v == Field(payload, "amount")
    ensures !Truthy(payload) ==> v == payload
  {
    if !Truthy(payload) then payload
    else
      var amount := Field(payload, "amount");
      if !Truthy(amount) then amount else Field(amount, "amount")
  }

  /** `parseFloat(probe) === 15.15`. */
  predicate IsAmountInvalid(payload: Value) {
    ParseFloat(AmountProbe(payload)) == Some(InvalidAmountValue)
  }

  /** `requestState || (isAmountInvalid ? 'REJECTED' : 'RECEIVED')`. */
  function TransactionRequestState(requestState: Option<string>, payload: Value): (state: string)
    ensures requestState.Some? && requestState.value != "" ==> state == requestState.value
    ensures requestState.None? || requestState.value == "" ==>
      && (state == Rejected <==> IsAmountInvalid(payload))
      && (state == Received <==> !IsAmountInvalid(payload))
  {
    if Truthy(OptionalStr(requestState)) then requestState.value
    else if IsAmountInvalid(payload) then Rejected
    else Received
  }

  /** The headers of the status callback. */
  function CallbackHeaders(headers: Headers, trxId: Option<string>, clock: Clock): (h: map<string, string>)
    ensures AddressedBack(headers, h)
    ensures Get(h, "FSPIOP-URI") == Some("/transactionRequests/" + Interpolate(trxId))
    ensures Get(h, "FSPIOP-HTTP-Method") == Some("PUT")
    ensures Get(h, "Content-Type") == Some(MediaType)
    ensures Get(h, "Date") == Some(clock.utc(clock.nowMs))
    ensures Get(h, "traceparent") == IfPresent(headers, "traceparent")
    ensures Get(h, "tracestate") == IfPresent(headers, "tracestate")
    ensures "Accept" !in h
    ensures h.Keys <= {"Content-Type", "Date", "FSPIOP-HTTP-Method", "FSPIOP-URI",
                       "FSPIOP-Source", "FSPIOP-Destination", "traceparent", "tracestate"}
  {
    RoutedBack(CallbackBase(MediaType, clock.utc(clock.nowMs), "PUT",
                            "/transactionRequests/" + Interpolate(trxId)), headers)
  }

  /** The body of the state callback, field by field. */
  function StateBody(transactionId: Value, state: Value, extensionList: Value): (b: Value)
    ensures b.Obj? && b.fields.Keys == {"transactionId", "transactionRequestState", "extensionList"}
    ensures b.fields["transactionId"] == transactionId
    ensures b.fields["transactionRequestState"] == state
    ensures b.fields["extensionList"] == extensionList
  {
    Obj(map[
      "transactionId" := transactionId,
      "transactionRequestState" := state,
      "extensionList" := extensionList])
  }

  /** The PUT of the transaction-request state. Reading
      `payload.extensionList` throws when the payload is undefined or null,
      and then nothing is sent. */
  function TransactionRequestCallback(
    headers: Headers, payload: Value, trxId: Option<string>, requestState: Option<string>,
    endpoint: string, clock: Clock): (r: Result<HttpRequest>)
    ensures r.Err? <==> Nullish(payload)
    ensures r.Ok? ==>
      && r.value.verb == "PUT"
      && r.value.url == endpoint + "/transactionRequests/" + Interpolate(trxId)
      && r.value.headers == CallbackHeaders(headers, trxId, clock)
      && r.value.body.Obj?
      && r.value.body.fields.Keys == {"transactionId", "transactionRequestState", "extensionList"}
      && r.value.body.fields["transactionId"] == OptionalStr(trxId)
      && r.value.body.fields["transactionRequestState"] == Str(TransactionRequestState(requestState, payload))
      && r.value.body.fields["extensionList"] == Field(payload, "extensionList")
  {
    var state := TransactionRequestState(requestState, payload);
    var extensionList :- Prop(payload, "extensionList");
    var body := StateBody(OptionalStr(trxId), Str(state), extensionList);
    Ok(HttpRequest("PUT", endpoint + "/transactionRequests/" + Interpolate(trxId),
                   CallbackHeaders(headers, trxId, clock), body))
  }

  /** What became of the continuation `cb`: not called, called, or called
      while null (a TypeError that the same `catch` swallows). */
  datatype CallbackUse = NotInvoked | Invoked | InvokedNull

  /** `putTransactionRequest(request, cb, requestState)`. The transaction
      request id is read from the transaction-requests cache; only a 200
      reply counts as success; after a success the continuation runs unless
      the state sent is REJECTED. Every error is caught. */
  method PutTransactionRequest(
    headers: Headers, payload: Value, requestsCache: map<string, string>,
    hasCallback: bool, requestState: Option<string>,
    endpoint: string, clock: Clock, reply: SendOutcome)
    returns (delivery: Delivery, callback: CallbackUse)
    ensures delivery == Deliver(TransactionRequestCallback(
      headers, payload, Get(requestsCache, "transactionRequestId"), requestState, endpoint, clock), reply, OK)
    ensures delivery.Sent? ==> (delivery.accepted <==> reply == Status(OK))
    ensures callback != NotInvoked <==>
      delivery.Sent? && delivery.accepted && TransactionRequestState(requestState, payload) != Rejected
    ensures callback == Invoked ==> hasCallback
    ensures callback == InvokedNull ==> !hasCallback
  {
    var trxId := Get(requestsCache, "transactionRequestId");
    callback := NotInvoked;
    var built := TransactionRequestCallback(headers, payload, trxId, requestState, endpoint, clock);
    if built.Err? {
      delivery := NotSent;
      return;
    }
    delivery := Dispatch(built.value, reply, OK);
    if !delivery.accepted {
      return;
    }
    var state := TransactionRequestState(requestState, payload);
    if state == Rejected {
      return;
    }
    callback := if hasCallback then Invoked else InvokedNull;
  }

  /** With the state forced to REJECTED the continuation is never touched,
      whatever the reply, so a null continuation is safe. */
  lemma RejectedNeverContinues(payload: Value)
    ensures TransactionRequestState(Some(Rejected), payload) == Rejected
  {
  }

  lemma FifteenFifteen()
    ensures ParseDecimal("15.15") == Some(15.15)
  {
    var fifteen := "15";
    assert AllDigits(fifteen) && DigitsValue(fifteen) == 15;
    assert Pow10(2) == 100;
    ParsePointed(fifteen, fifteen);
    assert fifteen + "." + fifteen == "15.15";
  }

  lemma FifteenSixteen()
    ensures ParseDecimal("15.16") == Some(15.16)
  {
    var fifteen, sixteen := "15", "16";
    assert AllDigits(fifteen) && DigitsValue(fifteen) == 15;
    assert AllDigits(sixteen) && DigitsValue(sixteen) == 16;
    assert Pow10(2) == 100;
    ParsePointed(fifteen, sixteen);
    assert fifteen + "." + sixteen == "15.16";
  }

  /** A word with no decimal point that starts with a letter is NaN. */
  lemma WordIsNaN(w: string)
    requires |w| > 0 && ('a' <= w[0] <= 'z' || 'A' <= w[0] <= 'Z') && '.' !in w
    ensures ParseDecimal(w) == None
  {
    assert !AllDigits(w) by { assert !IsDigit(w[0]); }
  }

  /** No falsy value reads as 15.15: `undefined`, `null`, `false`, `NaN`
      and `""` are NaN, and `0` reads as 0. */
  lemma FalsyIsNotInvalid(v: Value)
    requires !Truthy(v)
    ensures ParseFloat(v) != Some(InvalidAmountValue)
  {
    match v
    case Undefined => assert '.' !in "undefined"; WordIsNaN("undefined");
    case Null => assert '.' !in "null"; WordIsNaN("null");
    case Bool(_) => assert '.' !in "false"; WordIsNaN("false");
    case Num(r) =>
      if r == "0" {
        ParseDigits("0");
      } else {
        assert '.' !in "NaN"; WordIsNaN("NaN");
      }
    case Str(_) =>
  }

  /** The request is taken as "rejected by payer" exactly when the payload,
      its `amount` and the nested `amount.amount` are present and the last
      reads as 15.15. */
  lemma AmountInvalidMeans(payload: Value)
    ensures IsAmountInvalid(payload) <==>
      && Truthy(payload) && Truthy(Field(payload, "amount"))
      && ParseFloat(Field(Field(payload, "amount"), "amount")) == Some(InvalidAmountValue)
  {
    if !Truthy(payload) {
      FalsyIsNotInvalid(payload);
    } else if !Truthy(Field(payload, "amount")) {
      FalsyIsNotInvalid(Field(payload, "amount"));
    }
  }

  /** 15.15 is recognised as a string or as a number, 15.16 is not. */
  lemma InvalidAmountExamples()
    ensures IsAmountInvalid(Obj(map["amount" := Obj(map["amount" := Str("15.15")])]))
    ensures IsAmountInvalid(Obj(map["amount" := Obj(map["amount" := Num("15.15")])]))
    ensures !IsAmountInvalid(Obj(map["amount" := Obj(map["amount" := Str("15.16")])]))
  {
    FifteenFifteen();
    FifteenSixteen();
    AmountParses(Str("15.15"), 15.15);
    AmountParses(Num("15.15"), 15.15);
    AmountParses(Str("15.16"), 15.16);
  }

  /** A truthy nested amount is what the probe reads. */
  lemma AmountParses(amount: Value, x: real)
    requires Truthy(amount) && ParseDecimal(ToText(amount)) == Some(x)
    ensures ParseFloat(AmountProbe(Obj(map["amount" := Obj(map["amount" := amount])]))) == Some(x)
  {
    var inner := Obj(map["amount" := amount]);
    var payload := Obj(map["amount" := inner]);
    assert Field(payload, "amount") == inner;
    assert Field(inner, "amount") == amount;
  }

  /** The chain tolerates a missing payload or amount: neither is invalid. */
  lemma MissingAmountIsValid()
    ensures !IsAmountInvalid(Null) && !IsAmountInvalid(Obj(map[])) && !IsAmountInvalid(Undefined)
  {
    assert AmountProbe(Null) == Null;
    assert AmountProbe(Undefined) == Undefined;
    assert AmountProbe(Obj(map[])) == Undefined;
    assert '.' !in "null";
    assert '.' !in "undefined";
    WordIsNaN("null");
    WordIsNaN("undefined");
  }
}
