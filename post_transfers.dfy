/** The transfer-prepare request the payer sends once a quote is accepted:
    a POST to the transfers service that only a 202 reply acknowledges. */
module PostTransfers {
  import opened Values
  import opened Outbound

  /** How long a prepared transfer stays valid, in milliseconds. */
  const ExpirationTime := 600000

  const MediaType := "application/vnd.interoperability.transfers+json;version=1.0"
  const AcceptType := "application/vnd.interoperability.transfers+json;version=1"

  /** The headers of the transfer prepare: the inbound source and
      destination swapped, the inbound signature passed through unchanged. */
  function TransferHeaders(headers: Headers, clock: Clock): (h: map<string, string>)
    ensures AddressedBack(headers, h)
    ensures Get(h, "FSPIOP-Signature") == Get(headers, "fspiop-signature")
    ensures Get(h, "traceparent") == Get(headers, "traceparent")
    ensures Get(h, "Accept") == Some(AcceptType)
    ensures Get(h, "Content-Type") == Some(MediaType)
    ensures Get(h, "Date") == Some(clock.utc(clock.nowMs))
    ensures h.Keys <= {"Accept", "Content-Type", "Date", "FSPIOP-Source", "FSPIOP-Destination",
                       "FSPIOP-Signature", "traceparent"}
  {
    var base := RequestBase(AcceptType, MediaType, clock.utc(clock.nowMs));
    ForwardedBack(WithHeader(base, "FSPIOP-Signature", Get(headers, "fspiop-signature")), headers)
  }

  /** The body of a transfer prepare, field by field. */
  function TransferBody(transferId: Value, payerFsp: Value, payeeFsp: Value, amount: Value,
                        expiration: Value, ilpPacket: Value, condition: Value): (b: Value)
    ensures b.Obj?
    ensures b.fields.Keys ==
      {"transferId", "payerFsp", "payeeFsp", "amount", "expiration", "ilpPacket", "condition"}
    ensures b.fields["transferId"] == transferId && b.fields["payerFsp"] == payerFsp
    ensures b.fields["payeeFsp"] == payeeFsp && b.fields["amount"] == amount
    ensures b.fields["expiration"] == expiration && b.fields["ilpPacket"] == ilpPacket
    ensures b.fields["condition"] == condition
  {
    Obj(map[
      "transferId" := transferId,
      "payerFsp" := payerFsp,
      "payeeFsp" := payeeFsp,
      "amount" := amount,
      "expiration" := expiration,
      "ilpPacket" := ilpPacket,
      "condition" := condition])
  }

  /** The POST of a transfer with the fresh id `transferId`. Reading
      `payload.transferAmount` throws when the payload is undefined or null,
      and then nothing is sent. */
  function TransferRequest(headers: Headers, payload: Value, transferId: string,
                           endpoint: string, clock: Clock): (r: Result<HttpRequest>)
    ensures r.Err? <==> Nullish(payload)
    ensures r.Ok? ==>
      && r.value.verb == "POST"
      && r.value.url == endpoint + "/transfers"
      && r.value.headers == TransferHeaders(headers, clock)
      && r.value.body.Obj?
      && r.value.body.fields.Keys ==
           {"transferId", "payerFsp", "payeeFsp", "amount", "expiration", "ilpPacket", "condition"}
      && r.value.body.fields["transferId"] == Str(transferId)
      && r.value.body.fields["payerFsp"] == OptionalStr(Get(headers, "fspiop-destination"))
      && r.value.body.fields["payeeFsp"] == OptionalStr(Get(headers, "fspiop-source"))
      && r.value.body.fields["amount"] == Field(payload, "transferAmount")
      && r.value.body.fields["expiration"] == Str(clock.iso(clock.nowMs + ExpirationTime))
      && r.value.body.fields["ilpPacket"] == Field(payload, "ilpPacket")
      && r.value.body.fields["condition"] == Field(payload, "condition")
  {
    var amount :- Prop(payload, "transferAmount");
    var body := TransferBody(Str(transferId), OptionalStr(Get(headers, "fspiop-destination")),
                             OptionalStr(Get(headers, "fspiop-source")), amount,
                             Str(clock.iso(clock.nowMs + ExpirationTime)),
                             Field(payload, "ilpPacket"), Field(payload, "condition"));
    Ok(HttpRequest("POST", endpoint + "/transfers", TransferHeaders(headers, clock), body))
  }

  /** `postTransfers({ payload, headers })`: building the request and the
      send share one `try`, so every failure is swallowed; only 202 counts
      as success. */
  function PostTransfers(headers: Headers, payload: Value, transferId: string,
                         endpoint: string, clock: Clock, reply: SendOutcome): (d: Delivery)
    ensures d.NotSent? <==> Nullish(payload)
    ensures d.Sent? ==>
      && d.request == TransferRequest(headers, payload, transferId, endpoint, clock).value
      && (d.accepted <==> reply == Status(ACCEPTED))
  {
    Deliver(TransferRequest(headers, payload, transferId, endpoint, clock), reply, ACCEPTED)
  }

  /** The payer and payee named in the body are the two parties of the
      inbound callback, read from its routing headers in reverse: the
      prepare goes from the payer (the inbound destination) to the payee. */
  lemma PartiesFollowRouting(headers: Headers, payload: Value, transferId: string,
                             endpoint: string, clock: Clock, reply: SendOutcome)
    requires !Nullish(payload)
    requires "fspiop-source" in headers && "fspiop-destination" in headers
    ensures var d := PostTransfers(headers, payload, transferId, endpoint, clock, reply);
      && d.Sent?
      && d.request.body.fields["payerFsp"] == Str(d.request.headers["FSPIOP-Source"])
      && d.request.body.fields["payeeFsp"] == Str(d.request.headers["FSPIOP-Destination"])
  {
    var h := TransferHeaders(headers, clock);
    assert Get(h, "FSPIOP-Source") == Some(headers["fspiop-destination"]);
    assert Get(h, "FSPIOP-Destination") == Some(headers["fspiop-source"]);
  }
}
