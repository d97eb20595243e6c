/** The quote request a payer sends to the quoting service: a POST whose
    body re-shapes an inbound transaction request, acknowledged only by a
    202 reply. */
module PostQuotes {
  import opened Values
  import opened Outbound
  import Text

  const MediaType := "application/vnd.interoperability.quotes+json;version=1.0"
  const AcceptType := "application/vnd.interoperability.quotes+json"

  /** The placeholder the test harness substitutes with the bearer token of
      the FSP named `fsp`: the name, upper-cased, between a fixed prefix
      and suffix. */
  function BearerToken(fsp: string): (auth: string)
    ensures |auth| == |fsp| + 24
    ensures auth[..9] == "Bearer {{"
    ensures auth[9..9 + |fsp|] == Text.ToUpper(fsp)
    ensures auth[9 + |fsp|..] == "_BEARER_TOKEN}}"
  {
    var auth := "Bearer {{" + Text.ToUpper(fsp) + "_BEARER_TOKEN}}";
    assert auth[..9] == "Bearer {{";
    assert auth[9..9 + |fsp|] == Text.ToUpper(fsp);
    auth
  }

  /** The headers of the quote request. */
  function QuoteHeaders(headers: Headers, clock: Clock): (h: map<string, string>)
    requires "fspiop-destination" in headers
    ensures AddressedBack(headers, h)
    ensures Get(h, "FSPIOP-Signature") == Get(headers, "fspiop-signature")
    ensures Get(h, "Authorization") == Some(BearerToken(headers["fspiop-destination"]))
    ensures Get(h, "traceparent") == Get(headers, "traceparent")
    ensures Get(h, "Accept") == Some(AcceptType)
    ensures Get(h, "Content-Type") == Some(MediaType)
    ensures Get(h, "Date") == Some(clock.utc(clock.nowMs))
    ensures h.Keys <= {"Accept", "Content-Type", "Date", "Authorization", "FSPIOP-Source",
                       "FSPIOP-Destination", "FSPIOP-Signature", "traceparent"}
  {
    var base := RequestBase(AcceptType, MediaType, clock.utc(clock.nowMs));
    var authorized := WithHeader(base, "Authorization", Some(BearerToken(headers["fspiop-destination"])));
    ForwardedBack(WithHeader(authorized, "FSPIOP-Signature", Get(headers, "fspiop-signature")), headers)
  }

  /** The payee parts whose properties are read. */
  predicate PayeeReadable(payee: Value) {
    !Nullish(payee) && !Nullish(Field(payee, "partyIdInfo"))
  }

  /** The payload parts whose properties are read: each must be neither
      undefined nor null, or the read throws. */
  predicate Readable(payload: Value) {
    && !Nullish(payload)
    && !Nullish(Field(payload, "payer"))
    && PayeeReadable(Field(payload, "payee"))
    && !Nullish(Field(payload, "amount"))
    && !Nullish(Field(payload, "transactionType"))
  }

  /** `{ partyIdType, partyIdentifier, fspId }` read from `v`. */
  function PartyIdInfo(v: Value): (r: Value)
    requires !Nullish(v)
    ensures r.Obj? && r.fields.Keys == {"partyIdType", "partyIdentifier", "fspId"}
    ensures forall k :: k in r.fields ==> r.fields[k] == Field(v, k)
  {
    Obj(map[
      "partyIdType" := Field(v, "partyIdType"),
      "partyIdentifier" := Field(v, "partyIdentifier"),
      "fspId" := Field(v, "fspId")])
  }

  /** The fixed personal information the simulated payer presents. */
  const PayerPersonalInfo := Obj(map[
    "complexName" := Obj(map["firstName" := Str("John"), "lastName" := Str("Doe")]),
    "dateOfBirth" := Str("1970-01-01")])

  /** The payer named by a transaction request's flat `payer` fields. */
  function PayerParty(payer: Value): (p: Value)
    requires !Nullish(payer)
    ensures p.Obj? && p.fields.Keys == {"partyIdInfo", "personalInfo"}
    ensures p.fields["partyIdInfo"] == PartyIdInfo(payer)
    ensures p.fields["personalInfo"] == PayerPersonalInfo
  {
    Obj(map["partyIdInfo" := PartyIdInfo(payer), "personalInfo" := PayerPersonalInfo])
  }

  /** The payee: its identity nested under `partyIdInfo`, its name and
      personal information copied as they are. */
  function PayeeParty(payee: Value): (p: Value)
    requires PayeeReadable(payee)
    ensures p.Obj? && p.fields.Keys == {"partyIdInfo", "name", "personalInfo"}
    ensures p.fields["partyIdInfo"] == PartyIdInfo(Field(payee, "partyIdInfo"))
    ensures p.fields["name"] == Field(payee, "name")
    ensures p.fields["personalInfo"] == Field(payee, "personalInfo")
  {
    Obj(map[
      "partyIdInfo" := PartyIdInfo(Field(payee, "partyIdInfo")),
      "name" := Field(payee, "name"),
      "personalInfo" := Field(payee, "personalInfo")])
  }

  /** The requested amount and currency. */
  function QuoteAmount(amount: Value): (a: Value)
    requires !Nullish(amount)
    ensures a.Obj? && a.fields.Keys == {"amount", "currency"}
    ensures forall k :: k in a.fields ==> a.fields[k] == Field(amount, k)
  {
    Obj(map["amount" := Field(amount, "amount"), "currency" := Field(amount, "currency")])
  }

  /** A payment initiated by the payee, of the requested initiator type. */
  function QuoteTransactionType(requested: Value): (t: Value)
    requires !Nullish(requested)
    ensures t.Obj? && t.fields.Keys == {"scenario", "initiator", "initiatorType"}
    ensures t.fields["scenario"] == Str("PAYMENT") && t.fields["initiator"] == Str("PAYEE")
    ensures t.fields["initiatorType"] == Field(requested, "initiatorType")
  {
    Obj(map[
      "scenario" := Str("PAYMENT"),
      "initiator" := Str("PAYEE"),
      "initiatorType" := Field(requested, "initiatorType")])
  }

  /** A quote request object from its nine field values. */
  function QuoteObject(quoteId: Value, transactionId: Value, transactionRequestId: Value,
                       payer: Value, payee: Value, amountType: Value, amount: Value,
                       transactionType: Value, note: Value): (b: Value)
    ensures b.Obj?
    ensures b.fields.Keys == {"quoteId", "transactionId", "transactionRequestId", "payer", "payee",
                              "amountType", "amount", "transactionType", "note"}
    ensures b.fields["quoteId"] == quoteId && b.fields["transactionId"] == transactionId
    ensures b.fields["transactionRequestId"] == transactionRequestId
    ensures b.fields["payer"] == payer && b.fields["payee"] == payee
    ensures b.fields["amountType"] == amountType && b.fields["amount"] == amount
    ensures b.fields["transactionType"] == transactionType && b.fields["note"] == note
  {
    Obj(map[
      "quoteId" := quoteId,
      "transactionId" := transactionId,
      "transactionRequestId" := transactionRequestId,
      "payer" := payer,
      "payee" := payee,
      "amountType" := amountType,
      "amount" := amount,
      "transactionType" := transactionType,
      "note" := note])
  }

  /** The body of the quote request, with fresh `quoteId` and
      `transactionId`. */
  function QuoteBody(payload: Value, quoteId: string, transactionId: string): (b: Value)
    requires Readable(payload)
    ensures b.Obj?
  {
    QuoteObject(
      Str(quoteId),
      Str(transactionId),
      Field(payload, "transactionRequestId"),
      PayerParty(Field(payload, "payer")),
      PayeeParty(Field(payload, "payee")),
      Str("SEND"),
      QuoteAmount(Field(payload, "amount")),
      QuoteTransactionType(Field(payload, "transactionType")),
      Field(payload, "note"))
  }

  /** The POST of a quote request. A missing payload part, or a missing
      destination header (whose `toUpperCase` throws), stops it before it is
      sent. */
  function QuoteRequest(headers: Headers, payload: Value, quoteId: string, transactionId: string,
                        endpoint: string, clock: Clock): (r: Result<HttpRequest>)
    ensures r.Ok? <==> Readable(payload) && "fspiop-destination" in headers
    ensures r.Ok? ==>
      && r.value.verb == "POST"
      && r.value.url == endpoint + "/quotes"
      && r.value.headers == QuoteHeaders(headers, clock)
      && r.value.body == QuoteBody(payload, quoteId, transactionId)
  {
    if !Readable(payload) || "fspiop-destination" !in headers then Err(TypeError)
    else Ok(HttpRequest("POST", endpoint + "/quotes", QuoteHeaders(headers, clock),
                        QuoteBody(payload, quoteId, transactionId)))
  }

  /** `postQuotes({ payload, headers })`: every failure is caught; only 202
      counts as success. */
  function PostQuotes(headers: Headers, payload: Value, quoteId: string, transactionId: string,
                      endpoint: string, clock: Clock, reply: SendOutcome): (d: Delivery)
    ensures d.Sent? <==> Readable(payload) && "fspiop-destination" in headers
    ensures d.Sent? ==>
      && d.request == QuoteRequest(headers, payload, quoteId, transactionId, endpoint, clock).value
      && (d.accepted <==> reply == Status(ACCEPTED))
  {
    Deliver(QuoteRequest(headers, payload, quoteId, transactionId, endpoint, clock), reply, ACCEPTED)
  }

  /** The quote request has exactly nine fields; its payer and payee are
      the two parties read from the payload. */
  lemma QuoteShape(payload: Value, quoteId: string, transactionId: string)
    requires Readable(payload)
    ensures var b := QuoteBody(payload, quoteId, transactionId);
      && b.fields.Keys == {"quoteId", "transactionId", "transactionRequestId", "payer", "payee",
                           "amountType", "amount", "transactionType", "note"}
      && b.fields["payer"] == PayerParty(Field(payload, "payer"))
      && b.fields["payee"] == PayeeParty(Field(payload, "payee"))
  {
  }

  /** The quote and transaction ids are the fresh ones; the transaction
      request it answers and the note are copied from the payload. */
  lemma QuoteIdentity(payload: Value, quoteId: string, transactionId: string)
    requires Readable(payload)
    ensures var f := QuoteBody(payload, quoteId, transactionId).fields;
      && f["quoteId"] == Str(quoteId) && f["transactionId"] == Str(transactionId)
      && f["transactionRequestId"] == Field(payload, "transactionRequestId")
      && f["note"] == Field(payload, "note")
  {
  }

  /** The payer of the quote is the payload's flat `payer`, the payee its
      nested `payee.partyIdInfo`: the same field names are read at
      different depths on the two sides. The payer's personal information
      is fixed; the payee's name and personal information are copied. */
  lemma QuoteParties(payload: Value, quoteId: string, transactionId: string, key: string)
    requires Readable(payload)
    requires key in {"partyIdType", "partyIdentifier", "fspId"}
    ensures var f := QuoteBody(payload, quoteId, transactionId).fields;
      var payee := Field(payload, "payee");
      && f["payer"].fields["partyIdInfo"].fields[key] == Field(Field(payload, "payer"), key)
      && f["payer"].fields["personalInfo"] == PayerPersonalInfo
      && f["payee"].fields["partyIdInfo"].fields[key] == Field(Field(payee, "partyIdInfo"), key)
      && f["payee"].fields["name"] == Field(payee, "name")
      && f["payee"].fields["personalInfo"] == Field(payee, "personalInfo")
  {
  }

  /** A payment initiated by the payee, sending the requested amount in the
      requested currency. */
  lemma QuoteTerms(payload: Value, quoteId: string, transactionId: string)
    requires Readable(payload)
    ensures var f := QuoteBody(payload, quoteId, transactionId).fields;
      var amount := Field(payload, "amount");
      && f["amountType"] == Str("SEND")
      && f["amount"].fields["amount"] == Field(amount, "amount")
      && f["amount"].fields["currency"] == Field(amount, "currency")
      && f["transactionType"].fields["scenario"] == Str("PAYMENT")
      && f["transactionType"].fields["initiator"] == Str("PAYEE")
      && f["transactionType"].fields["initiatorType"] ==
           Field(Field(payload, "transactionType"), "initiatorType")
  {
  }
}
