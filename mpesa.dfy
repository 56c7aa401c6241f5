/**
 * The M-Pesa payment client: a cached session key in secure storage, one
 * authenticated request wrapper around the payment API, and the C2B payment
 * request built on top of it.
 *
 * The two HTTP endpoints are not called: each reply is an input value of type
 * HttpReply, and the parsed JSON body is part of that value. Secure storage is
 * the single field `stored` of class Client.
 */
module Mpesa {
  import opened Wrappers

  // ---------------------------------------------------------------------------
  // Constants
  // ---------------------------------------------------------------------------

  /** Key of the one secure-storage slot; Client.stored is the content of this slot. */
  const SessionKeyStorageKey: string := "mpesaSessionKey"
  /** Every payment API request goes to this base followed by an endpoint path. */
  const MpesaApiBaseUrl: string := "https://openapi.m-pesa.com/sandbox/ipg/v2/vodacomTZN"

  /** The response code the payment API uses for success. */
  const SuccessCode: string := "INS-0"
  const GenericApiErrorMessage: string := "M-Pesa API error"
  const SessionKeyNotFoundMessage: string := "Session key not found in response"
  const SessionFetchFailedPrefix: string := "Failed to fetch session key: "
  const RequestFailedPrefix: string := "M-Pesa API request failed: "
  const BearerPrefix: string := "Bearer "

  const C2BEndpoint: string := "/c2bPayment/singleStage/"
  /** Tanzanian country calling code, put in front of the customer's phone number. */
  const CountryCallingCode: string := "255"
  const Country: string := "TZN"
  const Currency: string := "TZS"
  const ServiceProviderCode: string := "000000"
  const PurchasedItemsDesc: string := "Cart Items"

  const AmountField: string := "input_Amount"
  const CountryField: string := "input_Country"
  const CurrencyField: string := "input_Currency"
  const MsisdnField: string := "input_CustomerMSISDN"
  const ProviderField: string := "input_ServiceProviderCode"
  const ConversationField: string := "input_ThirdPartyConversationID"
  const ReferenceField: string := "input_TransactionReference"
  const ItemsField: string := "input_PurchasedItemsDesc"

  const C2BFields: set<string> :=
    {AmountField, CountryField, CurrencyField, MsisdnField, ProviderField,
     ConversationField, ReferenceField, ItemsField}

  // ---------------------------------------------------------------------------
  // Data
  // ---------------------------------------------------------------------------

  /** The scalar JSON values a request body holds. */
  datatype Json = JString(str: string) | JNumber(num: int)

  /** A JSON object sent as a request body. */
  type Body = map<string, Json>

  /** One outgoing request to the payment API. */
  datatype Request = Request(url: string, httpMethod: string, headers: map<string, string>, body: Option<Body>)

  /**
   * What an HTTP call yields: either the call itself fails (NetworkDown), or a
   * response arrives with its `ok` flag, its status text and its parsed body.
   */
  datatype HttpReply<B> =
    | NetworkDown
    | Received(ok: bool, statusText: string, json: JsonBody<B>)

  /**
   * What `response.json()` makes of a body: it does not parse (Malformed), it
   * is the JSON literal `null` (Null), or it is an object whose fields the
   * client reads (Object).
   */
  datatype JsonBody<B> = Malformed | Null | Object(data: B)

  /** The body of the session-key issuer's reply: its `output_SessionID` field, if any. */
  datatype IssuerBody = IssuerBody(sessionId: Option<string>)

  /** The payment API's response envelope: `output_ResponseCode` and `output_ResponseDesc`. */
  datatype Envelope = Envelope(responseCode: Option<string>, responseDesc: Option<string>)

  /** Every way an operation of the client fails. */
  datatype Error =
    | NetworkFailure                    // the HTTP call itself was rejected; passed on as is
    | MalformedJson                     // the response body did not parse; passed on as is
    | NullBody                          // a field read on a `null` body threw a TypeError; passed on as is
    | SessionFetchFailed(statusText: string)
    | SessionKeyNotFound
    | RequestFailed(statusText: string)
    | ApiError(message: string)

  /** The message of the errors the client raises itself; None for the ones it passes on. */
  function Message(e: Error): (m: Option<string>)
    ensures m.Some? <==> !(e.NetworkFailure? || e.MalformedJson? || e.NullBody?)
    ensures e.SessionFetchFailed? ==> m == Some("Failed to fetch session key: " + e.statusText)
    ensures e.SessionKeyNotFound? ==> m == Some("Session key not found in response")
    ensures e.RequestFailed? ==> m == Some("M-Pesa API request failed: " + e.statusText)
    ensures e.ApiError? ==> m == Some(e.message)
    // every message the client raises itself is non-empty
    ensures m.Some? && !e.ApiError? ==> m.value != ""
  {
    match e
    case SessionFetchFailed(t) => Some(SessionFetchFailedPrefix + t)
    case SessionKeyNotFound => Some(SessionKeyNotFoundMessage)
    case RequestFailed(t) => Some(RequestFailedPrefix + t)
    case ApiError(m) => Some(m)
    case NetworkFailure => None
    case MalformedJson => None
    case NullBody => None
  }

  /** JavaScript truthiness of an optional string: present and not empty. */
  predicate Truthy(v: Option<string>)
  {
    v.Some? && v.value != ""
  }

  /** `s` with `prefix` removed from its front, if it starts with `prefix`. */
  function StripPrefix(prefix: string, s: string): (r: Option<string>)
    ensures r.Some? <==> prefix <= s
    ensures r.Some? ==> prefix + r.value == s
  {
    if prefix <= s then Some(s[|prefix|..]) else None
  }

  lemma StripPrefixOfConcat(prefix: string, s: string)
    ensures StripPrefix(prefix, prefix + s) == Some(s)
  {
  }

  // ---------------------------------------------------------------------------
  // Session key: the decision procedure of fetchSessionKey
  // ---------------------------------------------------------------------------

  /** What the issuer's reply amounts to when the cache misses. */
  function IssueSessionKey(issuer: HttpReply<IssuerBody>): (r: Result<string, Error>)
    ensures r.Success? <==>
      issuer.Received? && issuer.ok && issuer.json.Object? && Truthy(issuer.json.data.sessionId)
    ensures r.Success? ==> Some(r.value) == issuer.json.data.sessionId && r.value != ""
    ensures issuer.NetworkDown? ==> r == Failure(NetworkFailure)
    ensures issuer.Received? && !issuer.ok ==> r == Failure(SessionFetchFailed(issuer.statusText))
    ensures issuer.Received? && issuer.ok && issuer.json.Malformed? ==> r == Failure(MalformedJson)
    ensures issuer.Received? && issuer.ok && issuer.json.Null? ==> r == Failure(NullBody)
    ensures issuer.Received? && issuer.ok && issuer.json.Object? && !Truthy(issuer.json.data.sessionId) ==>
      r == Failure(SessionKeyNotFound) && Message(r.error) == Some(SessionKeyNotFoundMessage)
  {
    match issuer
    case NetworkDown => Failure(NetworkFailure)
    case Received(ok, statusText, json) =>
      if !ok then Failure(SessionFetchFailed(statusText))
      else if json.Malformed? then Failure(MalformedJson)
      else if json.Null? then Failure(NullBody)
      else if !Truthy(json.data.sessionId) then Failure(SessionKeyNotFound)
      else Success(json.data.sessionId.value)
  }

  /** The result of one fetchSessionKey call, the slot afterwards, and whether the issuer was asked. */
  datatype FetchStep = FetchStep(result: Result<string, Error>, stored: Option<string>, issuerCalled: bool)

  /** One fetchSessionKey call on slot content `stored`, with `issuer` the reply the issuer would give. */
  function FetchSessionKeyStep(stored: Option<string>, issuer: HttpReply<IssuerBody>): (s: FetchStep)
    // a hit: the stored key, no issuer call, the slot untouched
    ensures Truthy(stored) ==> s == FetchStep(Success(stored.value), stored, false)
    // a miss: exactly one issuer call, whose reply decides the result
    ensures !Truthy(stored) ==> s.issuerCalled && s.result == IssueSessionKey(issuer)
    // a key handed out is the one the slot holds afterwards, and it is never empty
    ensures s.result.Success? ==> Truthy(s.stored) && s.stored == Some(s.result.value)
    // a failure never writes the slot
    ensures s.result.Failure? ==> s.stored == stored
  {
    if Truthy(stored) then FetchStep(Success(stored.value), stored, false)
    else
      var r := IssueSessionKey(issuer);
      FetchStep(r, if r.Success? then Some(r.value) else stored, true)
  }

  // ---------------------------------------------------------------------------
  // Authenticated request: the pure parts of mpesaRequest
  // ---------------------------------------------------------------------------

  /** The session key an outgoing request carries in its Authorization header. */
  function BearerToken(q: Request): (t: Option<string>)
    ensures t.Some? ==> "Authorization" in q.headers && q.headers["Authorization"] == BearerPrefix + t.value
  {
    if "Authorization" in q.headers then StripPrefix(BearerPrefix, q.headers["Authorization"]) else None
  }

  /** The request mpesaRequest sends for `endpoint`, `httpMethod`, session key `token` and `body`. */
  function BuildRequest(endpoint: string, httpMethod: string, token: string, body: Option<Body>): (q: Request)
    ensures StripPrefix(MpesaApiBaseUrl, q.url) == Some(endpoint)
    ensures q.httpMethod == httpMethod
    ensures q.headers.Keys == {"Content-Type", "Authorization", "Origin"}
    ensures q.headers["Content-Type"] == "application/json" && q.headers["Origin"] == "*"
    ensures BearerToken(q) == Some(token)
    ensures q.body == body
  {
    StripPrefixOfConcat(MpesaApiBaseUrl, endpoint);
    StripPrefixOfConcat(BearerPrefix, token);
    Request(MpesaApiBaseUrl + endpoint, httpMethod,
            map["Content-Type" := "application/json", "Authorization" := BearerPrefix + token, "Origin" := "*"],
            body)
  }

  /** The response-code check on a parsed envelope. */
  function CheckResponseCode(data: Envelope): (r: Result<Envelope, Error>)
    ensures r.Success? <==> data.responseCode == Some(SuccessCode)
    ensures r.Success? ==> r.value == data
    ensures r.Failure? ==> r.error.ApiError? && r.error.message != ""
    ensures r.Failure? && Truthy(data.responseDesc) ==> r.error.message == data.responseDesc.value
    ensures r.Failure? && !Truthy(data.responseDesc) ==> r.error.message == GenericApiErrorMessage
  {
    if data.responseCode != Some(SuccessCode) then
      Failure(ApiError(if Truthy(data.responseDesc) then data.responseDesc.value else GenericApiErrorMessage))
    else
      Success(data)
  }

  /** What the payment API's reply amounts to, once the request has been sent. */
  function ResponseOutcome(api: HttpReply<Envelope>): (r: Result<Envelope, Error>)
    ensures r.Success? <==>
      api.Received? && api.ok && api.json.Object? && api.json.data.responseCode == Some(SuccessCode)
    ensures r.Success? ==> r.value == api.json.data
    ensures api.NetworkDown? ==> r == Failure(NetworkFailure)
    ensures api.Received? && !api.ok ==> r == Failure(RequestFailed(api.statusText))
    ensures api.Received? && api.ok && api.json.Malformed? ==> r == Failure(MalformedJson)
    ensures api.Received? && api.ok && api.json.Null? ==> r == Failure(NullBody)
    ensures api.Received? && api.ok && api.json.Object? ==> r == CheckResponseCode(api.json.data)
  {
    match api
    case NetworkDown => Failure(NetworkFailure)
    case Received(ok, statusText, json) =>
      if !ok then Failure(RequestFailed(statusText))
      else if json.Malformed? then Failure(MalformedJson)
      else if json.Null? then Failure(NullBody)
      else CheckResponseCode(json.data)
  }

  /** The result of one mpesaRequest call, the slot afterwards, whether the issuer was asked, and the request sent. */
  datatype RequestStep = RequestStep(result: Result<Envelope, Error>, stored: Option<string>, issuerCalled: bool, request: Option<Request>)

  /** One mpesaRequest call on slot content `stored`, given the replies of the issuer and of the payment API. */
  function MpesaRequestStep(stored: Option<string>, issuer: HttpReply<IssuerBody>, api: HttpReply<Envelope>,
                            endpoint: string, httpMethod: string, body: Option<Body>): (s: RequestStep)
    // the session key is obtained exactly as fetchSessionKey obtains it
    ensures s.stored == FetchSessionKeyStep(stored, issuer).stored
    ensures s.issuerCalled <==> !Truthy(stored)
    // a request goes out if and only if a session key was obtained, and it carries
    // the key the slot then holds: the stored one on a hit, the fresh one on a miss
    ensures s.request.Some? <==> FetchSessionKeyStep(stored, issuer).result.Success?
    ensures s.request.Some? ==>
      Truthy(s.stored) && s.request.value == BuildRequest(endpoint, httpMethod, s.stored.value, body)
    ensures Truthy(stored) ==> s.request == Some(BuildRequest(endpoint, httpMethod, stored.value, body))
    // without a session key the call fails with the key's error
    ensures s.request.None? ==> s.result == Failure(FetchSessionKeyStep(stored, issuer).result.error)
    // with one, the API's reply decides
    ensures s.request.Some? ==> s.result == ResponseOutcome(api)
    ensures s.result.Success? ==>
      s.request.Some? && api.Received? && api.ok && api.json.Object? &&
      api.json.data.responseCode == Some(SuccessCode) && s.result.value == api.json.data
  {
    var f := if Truthy(stored) then FetchStep(Success(stored.value), stored, false)
             else FetchSessionKeyStep(stored, issuer);
    if f.result.Failure? then
      RequestStep(Failure(f.result.error), f.stored, f.issuerCalled, None)
    else
      RequestStep(ResponseOutcome(api), f.stored, f.issuerCalled,
                  Some(BuildRequest(endpoint, httpMethod, f.result.value, body)))
  }

  // ---------------------------------------------------------------------------
  // C2B payment payload
  // ---------------------------------------------------------------------------

  /** A payment request as the caller gives it. */
  datatype PaymentOrder = PaymentOrder(phoneNumber: string, amount: int, reference: string)

  /** The body initiateC2BPayment posts. */
  function C2BPayload(phoneNumber: string, amount: int, reference: string): (p: Body)
    ensures p.Keys == C2BFields
    ensures p[AmountField] == JNumber(amount)
    ensures p[MsisdnField] == JString("255" + phoneNumber)
    ensures p[ConversationField] == p[ReferenceField] == JString(reference)
    ensures p[CountryField] == JString("TZN") && p[CurrencyField] == JString("TZS")
    ensures p[ProviderField] == JString("000000") && p[ItemsField] == JString("Cart Items")
    ensures ReadC2BPayload(p) == Some(PaymentOrder(phoneNumber, amount, reference))
  {
    StripPrefixOfConcat(CountryCallingCode, phoneNumber);
    map[AmountField := JNumber(amount),
        CountryField := JString(Country),
        CurrencyField := JString(Currency),
        MsisdnField := JString(CountryCallingCode + phoneNumber),
        ProviderField := JString(ServiceProviderCode),
        ConversationField := JString(reference),
        ReferenceField := JString(reference),
        ItemsField := JString(PurchasedItemsDesc)]
  }

  /** True when `b` is shaped like a C2B payload (the right fields, the fixed values, one reference twice). */
  predicate IsC2BPayload(b: Body)
  {
    b.Keys == C2BFields &&
    b[CountryField] == JString(Country) && b[CurrencyField] == JString(Currency) &&
    b[ProviderField] == JString(ServiceProviderCode) && b[ItemsField] == JString(PurchasedItemsDesc) &&
    b[AmountField].JNumber? &&
    b[MsisdnField].JString? && CountryCallingCode <= b[MsisdnField].str &&
    b[ReferenceField].JString? && b[ConversationField] == b[ReferenceField]
  }

  /** Reads the payment order back out of a C2B payload; None for any other body. */
  function ReadC2BPayload(b: Body): (o: Option<PaymentOrder>)
    ensures o.Some? <==> IsC2BPayload(b)
  {
    if IsC2BPayload(b) then
      Some(PaymentOrder(StripPrefix(CountryCallingCode, b[MsisdnField].str).value,
                        b[AmountField].num, b[ReferenceField].str))
    else None
  }

  /** A body the reader accepts is exactly the payload built from what it reads. */
  lemma C2BPayloadIsUnique(b: Body)
    requires ReadC2BPayload(b).Some?
    ensures var o := ReadC2BPayload(b).value; b == C2BPayload(o.phoneNumber, o.amount, o.reference)
  {
  }

  /** Different payment orders never produce the same payload. */
  lemma C2BPayloadInjective(o1: PaymentOrder, o2: PaymentOrder)
    requires C2BPayload(o1.phoneNumber, o1.amount, o1.reference) == C2BPayload(o2.phoneNumber, o2.amount, o2.reference)
    ensures o1 == o2
  {
  }

  // ---------------------------------------------------------------------------
  // The client
  // ---------------------------------------------------------------------------

  /**
   * The payment client with its secure-storage slot. The ghost fields record
   * the traffic: how often the issuer was asked for a session key, and every
   * request sent to the payment API.
   */
  class Client {
    /** The secure-storage slot under SessionKeyStorageKey. */
    var stored: Option<string>
    /** Number of GET requests sent to TokenIssuerUrl. */
    ghost var issuerCalls: nat
    /** Requests sent to the payment API, oldest first. */
    ghost var sent: seq<Request>

    /** Secure storage as the source sees it: at most the one key SessionKeyStorageKey, present when the slot holds a value. */
    ghost function Storage(): (m: map<string, string>)
      reads this
      ensures m.Keys <= {SessionKeyStorageKey}
      ensures SessionKeyStorageKey in m <==> stored.Some?
      ensures stored.Some? ==> m[SessionKeyStorageKey] == stored.value
    {
      if stored.Some? then map[SessionKeyStorageKey := stored.value] else map[]
    }

    constructor (initial: Option<string>)
      ensures stored == initial && issuerCalls == 0 && sent == []
    {
      stored := initial;
      issuerCalls := 0;
      sent := [];
    }

    /** fetchSessionKey: the cached key, or a fresh one from the issuer, stored before it is returned. */
    method FetchSessionKey(issuer: HttpReply<IssuerBody>) returns (r: Result<string, Error>)
      modifies this
      ensures var s := FetchSessionKeyStep(old(stored), issuer);
        r == s.result && stored == s.stored &&
        issuerCalls == old(issuerCalls) + (if s.issuerCalled then 1 else 0)
      ensures sent == old(sent)
    {
      var storedSessionKey := stored;
      if storedSessionKey.Some? && storedSessionKey.value != "" {
        return Success(storedSessionKey.value);
      }
      issuerCalls := issuerCalls + 1;
      if issuer.NetworkDown? {
        return Failure(NetworkFailure);
      }
      if !issuer.ok {
        return Failure(SessionFetchFailed(issuer.statusText));
      }
      if issuer.json.Malformed? {
        return Failure(MalformedJson);
      }
      if issuer.json.Null? {
        return Failure(NullBody);
      }
      var data := issuer.json.data;
      if data.sessionId.None? || data.sessionId.value == "" {
        return Failure(SessionKeyNotFound);
      }
      stored := data.sessionId;
      return Success(data.sessionId.value);
    }

    /** clearSessionKey: empties the slot, whatever it held. */
    method ClearSessionKey()
      modifies this
      ensures stored == None
      ensures issuerCalls == old(issuerCalls) && sent == old(sent)
    {
      stored := None;
    }

    /** mpesaRequest: makes sure a session key exists, sends one authenticated request, checks the reply. */
    method MpesaRequest(issuer: HttpReply<IssuerBody>, api: HttpReply<Envelope>,
                        endpoint: string, httpMethod: string := "GET", body: Option<Body> := None)
      returns (r: Result<Envelope, Error>)
      modifies this
      ensures var s := MpesaRequestStep(old(stored), issuer, api, endpoint, httpMethod, body);
        r == s.result && stored == s.stored &&
        issuerCalls == old(issuerCalls) + (if s.issuerCalled then 1 else 0) &&
        sent == old(sent) + (if s.request.Some? then [s.request.value] else [])
    {
      var sessionKey := stored;
      var token: string;
      if sessionKey.Some? && sessionKey.value != "" {
        token := sessionKey.value;
      } else {
        var fetched := FetchSessionKey(issuer);
        if fetched.Failure? {
          return Failure(fetched.error);
        }
        token := fetched.value;
      }
      var request := BuildRequest(endpoint, httpMethod, token, body);
      sent := sent + [request];
      if api.NetworkDown? {
        return Failure(NetworkFailure);
      }
      if !api.ok {
        return Failure(RequestFailed(api.statusText));
      }
      if api.json.Malformed? {
        return Failure(MalformedJson);
      }
      if api.json.Null? {
        return Failure(NullBody);
      }
      var data := api.json.data;
      if data.responseCode != Some(SuccessCode) {
        var message := if data.responseDesc.Some? && data.responseDesc.value != "" then data.responseDesc.value
                       else GenericApiErrorMessage;
        return Failure(ApiError(message));
      }
      return Success(data);
    }

    /** initiateC2BPayment: posts the C2B payload for the order to the single-stage C2B endpoint. */
    method InitiateC2BPayment(issuer: HttpReply<IssuerBody>, api: HttpReply<Envelope>,
                              phoneNumber: string, amount: int, reference: string)
      returns (r: Result<Envelope, Error>)
      modifies this
      ensures var s := MpesaRequestStep(old(stored), issuer, api, C2BEndpoint, "POST",
                                        Some(C2BPayload(phoneNumber, amount, reference)));
        r == s.result && stored == s.stored &&
        issuerCalls == old(issuerCalls) + (if s.issuerCalled then 1 else 0) &&
        sent == old(sent) + (if s.request.Some? then [s.request.value] else [])
    {
      r := MpesaRequest(issuer, api, C2BEndpoint, "POST", Some(C2BPayload(phoneNumber, amount, reference)));
    }
  }
}
