/** The OTP authorisation request of the payer: a GET whose query asks the
    payee side to authenticate the transfer amount, acknowledged only by a
    202 reply. */
module GetAuthorizations {
  import opened Values
  import opened Outbound
  import Text

  const MediaType := "application/vnd.interoperability.authorizations+json;version=1.0"
  const AcceptType := "application/vnd.interoperability.authorizations+json;version=1"

  const AuthenticationParam := "authenticationType=OTP"
  const RetriesParam := "retriesLeft=3"
  const AmountKey := "amount="
  const CurrencyKey := "currency="

  /** The query parameters, in order. */
  function QueryParams(amount: string, currency: string): seq<string> {
    [AuthenticationParam, RetriesParam, AmountKey + amount, CurrencyKey + currency]
  }

  /** The resource path and query after `/authorizations/`. */
  function Target(id: string, amount: string, currency: string): string {
    id + "?" + Text.Join(QueryParams(amount, currency), '&')
  }

  /** `${endpoint}/authorizations/${id}?authenticationType=OTP&retriesLeft=3
      &amount=${…amount}&currency=${…currency}`. It is built before the
      `try`, so reading the amount of a missing `transferAmount` throws out
      of the call. */
  function AuthorizationUrl(endpoint: string, id: Option<string>, payload: Value): (r: Result<string>)
    ensures r.Err? <==> Nullish(payload) || Nullish(Field(payload, "transferAmount"))
    ensures r.Ok? ==>
      var amount := Field(payload, "transferAmount");
      r.value == endpoint + "/authorizations/" +
        Target(Interpolate(id), ToText(Field(amount, "amount")), ToText(Field(amount, "currency")))
  {
    var transferAmount :- Prop(payload, "transferAmount");
    var amount :- Prop(transferAmount, "amount");
    var currency := Field(transferAmount, "currency");
    Ok(endpoint + "/authorizations/" + Target(Interpolate(id), ToText(amount), ToText(currency)))
  }

  /** The headers of the authorisation request. */
  function AuthorizationHeaders(headers: Headers, clock: Clock): (h: map<string, string>)
    ensures AddressedBack(headers, h)
    ensures Get(h, "traceparent") == Get(headers, "traceparent")
    ensures Get(h, "Accept") == Some(AcceptType)
    ensures Get(h, "Content-Type") == Some(MediaType)
    ensures Get(h, "Date") == Some(clock.utc(clock.nowMs))
    ensures "FSPIOP-Signature" !in h
    ensures h.Keys <= {"Accept", "Content-Type", "Date", "FSPIOP-Source", "FSPIOP-Destination", "traceparent"}
  {
    ForwardedBack(RequestBase(AcceptType, MediaType, clock.utc(clock.nowMs)), headers)
  }

  /** `getAuthorizations({ payload, headers }, id)`. `Err` is the rejection
      of the call when the URL cannot be built; otherwise the GET is sent,
      with no body, and only 202 counts as success. */
  function GetAuthorizations(headers: Headers, payload: Value, id: Option<string>,
                             endpoint: string, clock: Clock, reply: SendOutcome): (r: Result<Delivery>)
    ensures r.Err? <==> Nullish(payload) || Nullish(Field(payload, "transferAmount"))
    ensures r.Ok? ==>
      && r.value.Sent?
      && r.value.request.verb == "GET"
      && r.value.request.url == AuthorizationUrl(endpoint, id, payload).value
      && r.value.request.headers == AuthorizationHeaders(headers, clock)
      && r.value.request.body == Undefined
      && (r.value.accepted <==> reply == Status(ACCEPTED))
  {
    var url :- AuthorizationUrl(endpoint, id, payload);
    Ok(Dispatch(HttpRequest("GET", url, AuthorizationHeaders(headers, clock), Undefined), reply, ACCEPTED))
  }

  /** What the payee side reads back from a target. */
  datatype AuthQuery = AuthQuery(id: string, amount: string, currency: string)

  predicate HasPrefix(s: string, p: string) {
    |p| <= |s| && s[..|p|] == p
  }

  /** Parse a target `id?authenticationType=OTP&retriesLeft=3&amount=a&currency=c`. */
  function ParseTarget(t: string): Option<AuthQuery> {
    var parts := Text.Split(t, '?');
    if |parts| != 2 then None
    else
      var params := Text.Split(parts[1], '&');
      if |params| == 4 && params[0] == AuthenticationParam && params[1] == RetriesParam
         && HasPrefix(params[2], AmountKey) && HasPrefix(params[3], CurrencyKey)
      then Some(AuthQuery(parts[0], params[2][|AmountKey|..], params[3][|CurrencyKey|..]))
      else None
  }

  lemma ParamsFree(amount: string, currency: string, c: char)
    requires c == '?' || c == '&'
    requires c !in amount && c !in currency
    ensures forall p :: p in QueryParams(amount, currency) ==> c !in p
  {
    var ps := QueryParams(amount, currency);
    assert c !in AuthenticationParam && c !in RetriesParam && c !in AmountKey && c !in CurrencyKey;
    assert forall p :: p in ps ==> p == ps[0] || p == ps[1] || p == ps[2] || p == ps[3];
  }

  lemma JoinFree(parts: seq<string>, sep: char, c: char)
    requires |parts| >= 1 && c != sep
    requires forall p :: p in parts ==> c !in p
    ensures c !in Text.Join(parts, sep)
  {
    assert parts[0] in parts;
    if |parts| > 1 {
      assert forall p :: p in parts[1..] ==> p in parts;
      JoinFree(parts[1..], sep, c);
    }
  }

  lemma SplitTarget(id: string, amount: string, currency: string)
    requires '?' !in id && '?' !in amount && '?' !in currency
    ensures Text.Split(Target(id, amount, currency), '?') ==
      [id, Text.Join(QueryParams(amount, currency), '&')]
  {
    var ps := QueryParams(amount, currency);
    var query := Text.Join(ps, '&');
    ParamsFree(amount, currency, '?');
    JoinFree(ps, '&', '?');
    Text.SplitAtFirst(id, '?', query);
    assert Target(id, amount, currency) == id + ['?'] + query;
  }

  lemma SplitQuery(amount: string, currency: string)
    requires '&' !in amount && '&' !in currency
    ensures Text.Split(Text.Join(QueryParams(amount, currency), '&'), '&') == QueryParams(amount, currency)
  {
    ParamsFree(amount, currency, '&');
    Text.SplitJoin(QueryParams(amount, currency), '&');
  }

  /** The target determines the id, amount and currency it was built from,
      as long as none of them contains a '?' and neither the amount nor the
      currency contains a '&' (the values are not URL-encoded). */
  lemma TargetRoundTrip(id: string, amount: string, currency: string)
    requires '?' !in id && '?' !in amount && '?' !in currency
    requires '&' !in amount && '&' !in currency
    ensures ParseTarget(Target(id, amount, currency)) == Some(AuthQuery(id, amount, currency))
  {
    SplitTarget(id, amount, currency);
    SplitQuery(amount, currency);
    assert (AmountKey + amount)[..|AmountKey|] == AmountKey;
    assert (CurrencyKey + currency)[..|CurrencyKey|] == CurrencyKey;
    assert (AmountKey + amount)[|AmountKey|..] == amount;
    assert (CurrencyKey + currency)[|CurrencyKey|..] == currency;
  }
}
