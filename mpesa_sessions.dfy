/**
 * Properties of the payment client over several calls: what follows from one
 * call for the next, and what holds of any sequence of calls.
 */
module MpesaSessions {
  import opened Wrappers
  import opened Mpesa

  /** One call into the client, together with the replies it would receive. */
  datatype Call =
    | Fetch(issuer: HttpReply<IssuerBody>)
    | Clear
    | Send(issuer: HttpReply<IssuerBody>, api: HttpReply<Envelope>,
           endpoint: string, httpMethod: string, body: Option<Body>)

  /**
   * The client's state seen from outside: the slot, how often the issuer was
   * asked, how many session keys were written to the slot, how many clears
   * happened, and the requests sent to the payment API.
   */
  datatype Session = Session(stored: Option<string>, issuerCalls: nat, writes: nat, clears: nat, sent: seq<Request>)

  function Count(b: bool): (n: nat)
    ensures n == 1 <==> b
    ensures n <= 1
  {
    if b then 1 else 0
  }

  /** 1 when a fetch would go to the issuer, 0 when it would be a hit. */
  function Missing(v: Option<string>): (n: nat)
    ensures n == 0 <==> Truthy(v)
    ensures n <= 1
  {
    if Truthy(v) then 0 else 1
  }

  /** The state after one call; Perform shows that Client's methods make the same step on its fields. */
  function Apply(s: Session, c: Call): (t: Session)
    ensures t.issuerCalls - s.issuerCalls == Count(!c.Clear? && !Truthy(s.stored))
    ensures t.clears - s.clears == Count(c.Clear?)
  {
    match c
    case Fetch(issuer) =>
      var f := FetchSessionKeyStep(s.stored, issuer);
      s.(stored := f.stored, issuerCalls := s.issuerCalls + Count(f.issuerCalled),
         writes := s.writes + Count(f.issuerCalled && f.result.Success?))
    case Clear =>
      s.(stored := None, clears := s.clears + 1)
    case Send(issuer, api, endpoint, httpMethod, body) =>
      var q := MpesaRequestStep(s.stored, issuer, api, endpoint, httpMethod, body);
      s.(stored := q.stored, issuerCalls := s.issuerCalls + Count(q.issuerCalled),
         writes := s.writes + Count(q.issuerCalled && FetchSessionKeyStep(s.stored, issuer).result.Success?),
         sent := s.sent + (if q.request.Some? then [q.request.value] else []))
  }

  /** The state after the calls, in order. */
  function Run(s: Session, calls: seq<Call>): (t: Session)
    ensures s.issuerCalls <= t.issuerCalls && s.clears <= t.clears
    decreases |calls|
  {
    if calls == [] then s else Run(Apply(s, calls[0]), calls[1..])
  }

  /** The session keys the issuer hands out in the replies of one call. */
  function Issued(c: Call): (ks: set<string>)
    ensures |ks| <= 1
    ensures c.Clear? ==> ks == {}
  {
    match c
    case Fetch(issuer) => IssuedBy(issuer)
    case Send(issuer, _, _, _, _) => IssuedBy(issuer)
    case Clear => {}
  }

  /** The session key one issuer reply hands out, as a set. */
  function IssuedBy(issuer: HttpReply<IssuerBody>): (ks: set<string>)
    ensures ks == {} <==> IssueSessionKey(issuer).Failure?
    ensures forall k :: k in ks ==> issuer.Received? && issuer.json.Object? && issuer.json.data.sessionId == Some(k)
  {
    var r := IssueSessionKey(issuer);
    if r.Success? then {r.value} else {}
  }

  /** The session keys the issuer hands out to one call, counting only a call that asks it: not a clear, not a hit. */
  function AskedAt(s: Session, c: Call): (ks: set<string>)
    ensures ks <= Issued(c)
    ensures c.Clear? || Truthy(s.stored) ==> ks == {}
  {
    if c.Clear? || Truthy(s.stored) then {} else Issued(c)
  }

  /** The session keys the issuer hands out over a sequence of calls, to the calls that ask it. */
  function Asked(s: Session, calls: seq<Call>): (ks: set<string>)
    ensures "" !in ks
    decreases |calls|
  {
    if calls == [] then {} else AskedAt(s, calls[0]) + Asked(Apply(s, calls[0]), calls[1..])
  }

  /** The key a slot holds, as a set: empty when a fetch would miss. */
  function Base(v: Option<string>): (ks: set<string>)
    ensures ks == {} <==> !Truthy(v)
    ensures Truthy(v) ==> ks == {v.value}
  {
    if Truthy(v) then {v.value} else {}
  }

  // ---------------------------------------------------------------------------
  // Two calls in a row
  // ---------------------------------------------------------------------------

  /** After a fetch that succeeds, the next fetch returns the same key and does not ask the issuer. */
  lemma FetchAfterSuccessIsHit(stored: Option<string>, first: HttpReply<IssuerBody>, second: HttpReply<IssuerBody>)
    requires FetchSessionKeyStep(stored, first).result.Success?
    ensures var f := FetchSessionKeyStep(stored, first);
      FetchSessionKeyStep(f.stored, second) == FetchStep(f.result, f.stored, false)
  {
  }

  /** After a clear, a fetch always asks the issuer, and fails unless the issuer delivers a key. */
  lemma FetchAfterClearAsksIssuer(s: Session, issuer: HttpReply<IssuerBody>)
    ensures var f := FetchSessionKeyStep(Apply(s, Clear).stored, issuer);
      f.issuerCalled && (f.result.Success? <==> IssuedBy(issuer) != {})
      && (f.result.Failure? ==> f.stored == None)
  {
  }

  /** A request after a successful fetch carries the fetched key and asks the issuer nothing. */
  lemma RequestAfterFetchUsesCachedKey(stored: Option<string>, first: HttpReply<IssuerBody>,
                                       issuer: HttpReply<IssuerBody>, api: HttpReply<Envelope>,
                                       endpoint: string, httpMethod: string, body: Option<Body>)
    requires FetchSessionKeyStep(stored, first).result.Success?
    ensures var f := FetchSessionKeyStep(stored, first);
      var q := MpesaRequestStep(f.stored, issuer, api, endpoint, httpMethod, body);
      !q.issuerCalled && q.stored == f.stored && q.request.Some? &&
      BearerToken(q.request.value) == Some(f.result.value)
  {
  }

  /** The C2B request goes to the single-stage endpoint with POST and a body that reads back as the order. */
  lemma C2BRequestShape(stored: Option<string>, issuer: HttpReply<IssuerBody>, api: HttpReply<Envelope>,
                        phoneNumber: string, amount: int, reference: string)
    requires MpesaRequestStep(stored, issuer, api, C2BEndpoint, "POST",
                              Some(C2BPayload(phoneNumber, amount, reference))).request.Some?
    ensures var q := MpesaRequestStep(stored, issuer, api, C2BEndpoint, "POST",
                                      Some(C2BPayload(phoneNumber, amount, reference))).request.value;
      q.url == MpesaApiBaseUrl + C2BEndpoint && q.httpMethod == "POST" && q.body.Some? &&
      ReadC2BPayload(q.body.value) == Some(PaymentOrder(phoneNumber, amount, reference))
  {
  }

  // ---------------------------------------------------------------------------
  // Any sequence of calls
  // ---------------------------------------------------------------------------

  lemma ApplyStoredIsKnown(s: Session, c: Call)
    ensures var t := Apply(s, c);
      (Truthy(t.stored) ==> t.stored == s.stored || t.stored.value in AskedAt(s, c)) &&
      |s.sent| <= |t.sent| <= |s.sent| + 1 && t.sent[..|s.sent|] == s.sent &&
      (|t.sent| == |s.sent| + 1 ==> Truthy(t.stored) && BearerToken(t.sent[|s.sent|]) == Some(t.stored.value))
  {
  }

  /**
   * The client never makes a session key up: the key in the slot, and the key
   * on every request sent, is the one stored at the start or one the issuer
   * handed out to a call that asked it. Requests sent before are kept as they were.
   */
  lemma {:induction false} KeysComeFromIssuer(s: Session, calls: seq<Call>)
    ensures var t := Run(s, calls);
      var known := Base(s.stored) + Asked(s, calls);
      (Truthy(t.stored) ==> t.stored.value in known) &&
      |s.sent| <= |t.sent| && t.sent[..|s.sent|] == s.sent &&
      (forall i :: |s.sent| <= i < |t.sent| ==>
         BearerToken(t.sent[i]).Some? && BearerToken(t.sent[i]).value in known)
    decreases |calls|
  {
    if calls != [] {
      var s1 := Apply(s, calls[0]);
      var t := Run(s, calls);
      var known := Base(s.stored) + Asked(s, calls);
      assert t == Run(s1, calls[1..]);
      assert Asked(s, calls) == AskedAt(s, calls[0]) + Asked(s1, calls[1..]);
      ApplyStoredIsKnown(s, calls[0]);
      KeysComeFromIssuer(s1, calls[1..]);
      assert Base(s1.stored) + Asked(s1, calls[1..]) <= known;
      assert t.sent[..|s1.sent|] == s1.sent;
      assert t.sent[..|s.sent|] == s1.sent[..|s.sent|];
      forall i | |s.sent| <= i < |t.sent|
        ensures BearerToken(t.sent[i]).Some? && BearerToken(t.sent[i]).value in known
      {
        if i >= |s1.sent| {
        } else {
          assert t.sent[i] == s1.sent[i];
        }
      }
    }
  }

  /**
   * The cache writes a session key to the slot at most once between two
   * clears: over any calls, the writes exceed the clears by at most one, and
   * by none when a key was already stored at the start.
   */
  lemma {:induction false} WritesBoundedByClears(s: Session, calls: seq<Call>)
    ensures var t := Run(s, calls);
      t.writes - s.writes + Missing(t.stored) <= t.clears - s.clears + Missing(s.stored)
    ensures var t := Run(s, calls);
      s.writes <= t.writes && s.clears <= t.clears &&
      t.writes - s.writes <= t.clears - s.clears + Missing(s.stored)
    decreases |calls|
  {
    if calls != [] {
      var s1 := Apply(s, calls[0]);
      assert s1.writes + Missing(s1.stored) <= s.writes + Missing(s.stored) + (s1.clears - s.clears);
      WritesBoundedByClears(s1, calls[1..]);
    }
  }

  /** As long as no clear happens, the issuer is asked only while no key is stored. */
  lemma {:induction false} NoIssuerCallsOnceStored(s: Session, calls: seq<Call>)
    requires Truthy(s.stored)
    requires forall i :: 0 <= i < |calls| ==> !calls[i].Clear?
    ensures Run(s, calls).issuerCalls == s.issuerCalls && Run(s, calls).stored == s.stored
    decreases |calls|
  {
    if calls != [] {
      NoIssuerCallsOnceStored(Apply(s, calls[0]), calls[1..]);
    }
  }

  // ---------------------------------------------------------------------------
  // The client makes the same steps
  // ---------------------------------------------------------------------------

  /** The client's fields agree with the session: slot, issuer calls and sent requests. */
  ghost predicate Mirrors(c: Client, s: Session)
    reads c
  {
    c.stored == s.stored && c.issuerCalls == s.issuerCalls && c.sent == s.sent
  }

  /** Makes one call on the client; its fields then agree with Apply, so the lemmas above speak about Client. */
  method Perform(c: Client, s: Session, call: Call) returns (t: Session)
    requires Mirrors(c, s)
    modifies c
    ensures t == Apply(s, call) && Mirrors(c, t)
  {
    match call {
      case Fetch(issuer) =>
        var _ := c.FetchSessionKey(issuer);
      case Clear =>
        c.ClearSessionKey();
      case Send(issuer, api, endpoint, httpMethod, body) =>
        var _ := c.MpesaRequest(issuer, api, endpoint, httpMethod, body);
    }
    t := Apply(s, call);
  }

  /** Makes the calls on the client in order; its fields then agree with Run. */
  method PerformAll(c: Client, s: Session, calls: seq<Call>) returns (t: Session)
    requires Mirrors(c, s)
    modifies c
    ensures t == Run(s, calls) && Mirrors(c, t)
  {
    t := s;
    var i := 0;
    while i < |calls|
      invariant 0 <= i <= |calls|
      invariant Mirrors(c, t)
      invariant Run(t, calls[i..]) == Run(s, calls)
    {
      assert calls[i..][1..] == calls[i + 1..];
      t := Perform(c, t, calls[i]);
      i := i + 1;
    }
  }
}
