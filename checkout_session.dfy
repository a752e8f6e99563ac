/**
 * The `create-checkout-session` serverless handler: it checks the posted
 * student request, stores it unpaid, asks the payment provider for a $2.00
 * checkout session whose return URL carries the new row's id, records the
 * session id on the row and answers with the checkout URL.
 *
 * The store and the payment provider are inputs (`Providers`); the handler
 * returns its reply, the `student_requests` table after its writes, and the
 * session parameters it sent to the provider.
 */
module CheckoutSession {
  import opened Shared
  import opened Store
  import opened Url

  /** The literal the payment provider replaces with the session id on return. */
  const SessionPlaceholder: string := "{CHECKOUT_SESSION_ID}"
  const UnitAmountCents: nat := 200
  const ProductDescription: string := "InnovBridge Student Service"

  const MissingFields: string := "Missing required fields"
  const CreateFailed: string := "Failed to create request"
  const InternalError: string := "Internal server error"

  /** The posted JSON `{email, request_type, data}`. */
  datatype CheckoutBody = CheckoutBody(email: JsValue, requestType: JsValue, data: JsValue)

  datatype LineItem = LineItem(
    currency: string,
    productName: string,
    productDescription: string,
    unitAmount: nat,
    quantity: nat)

  /** The parameters of `stripe.checkout.sessions.create`. */
  datatype SessionParams = SessionParams(
    paymentMethodTypes: seq<string>,
    lineItems: seq<LineItem>,
    mode: string,
    successUrl: string,
    cancelUrl: string)

  datatype StripeSession = StripeSession(id: string, url: Option<string>)

  /** What the outside world answers during one request: the id the store
    * generates for the new row, whether the insert fails, the created session
    * (None: the provider call throws), and whether the session-id update fails. */
  datatype Providers = Providers(
    newId: string,
    insertFault: Option<DbError>,
    session: Option<StripeSession>,
    updateFault: Option<DbError>)

  datatype Reply =
    | Preflight
    | Json(status: nat, success: bool, url: Option<string>, error: Option<string>)

  /** `${t.charAt(0).toUpperCase() + t.slice(1)} Service` */
  function ProductName(requestType: string): (name: string)
    ensures |name| == |requestType| + |" Service"|
    ensures requestType != "" ==> name[0] == Upper(requestType[0])
    ensures requestType != "" ==> name[1..|requestType|] == requestType[1..]
    ensures name[|requestType|..] == " Service"
  {
    (if requestType == "" then "" else [Upper(requestType[0])] + requestType[1..]) + " Service"
  }

  function SuccessUrl(siteUrl: string, requestId: string): string {
    siteUrl + "?session_id=" + SessionPlaceholder + "&request_id=" + requestId
  }

  /** The session for one request kind: one $2.00 card payment, returning to the site. */
  function SessionFor(requestType: string, siteUrl: string, requestId: string): (params: SessionParams)
    ensures params.paymentMethodTypes == ["card"] && params.mode == "payment"
    ensures |params.lineItems| == 1
    ensures params.lineItems[0].unitAmount == UnitAmountCents && params.lineItems[0].quantity == 1
    ensures params.lineItems[0].currency == "usd"
    ensures params.lineItems[0].productName == ProductName(requestType)
    ensures params.successUrl == SuccessUrl(siteUrl, requestId) && params.cancelUrl == siteUrl
  {
    SessionParams(
      ["card"],
      [LineItem("usd", ProductName(requestType), ProductDescription, UnitAmountCents, 1)],
      "payment",
      SuccessUrl(siteUrl, requestId),
      siteUrl)
  }

  /** The URL the browser lands on after paying for session `sessionId`. */
  function LandingUrl(siteUrl: string, requestId: string, sessionId: string): string {
    siteUrl + "?session_id=" + sessionId + "&request_id=" + requestId
  }

  /** The provider replaces the placeholder, and only it, by the session id. */
  lemma SuccessUrlSubstitution(siteUrl: string, requestId: string, sessionId: string)
    requires '{' !in siteUrl && '{' !in requestId
    ensures ReplaceAll(SuccessUrl(siteUrl, requestId), SessionPlaceholder, sessionId)
            == LandingUrl(siteUrl, requestId, sessionId)
  {
    var head := siteUrl + "?session_id=";
    var tail := "&request_id=" + requestId;
    assert SuccessUrl(siteUrl, requestId) == head + SessionPlaceholder + tail;
    ReplaceAllOnce(head, SessionPlaceholder, sessionId, tail);
  }

  /** The query the landing URL carries, as `location.search` shows it. */
  function LandingQuery(requestId: string, sessionId: string): string {
    "session_id" + "=" + sessionId + "&" + ("request_id" + "=" + requestId)
  }

  lemma LandingSearch(siteUrl: string, requestId: string, sessionId: string)
    requires '?' !in siteUrl && '#' !in siteUrl && '#' !in requestId && '#' !in sessionId
    ensures SearchOf(LandingUrl(siteUrl, requestId, sessionId)) == LandingQuery(requestId, sessionId)
  {
    assert LandingUrl(siteUrl, requestId, sessionId) == siteUrl + "?" + LandingQuery(requestId, sessionId);
    SearchOfSplit(siteUrl, LandingQuery(requestId, sessionId));
  }

  /** On the landing URL the page's query lookups give back both identifiers. */
  lemma LandingUrlCarriesIds(siteUrl: string, requestId: string, sessionId: string)
    requires '?' !in siteUrl && '#' !in siteUrl
    requires '&' !in requestId && '#' !in requestId
    requires '&' !in sessionId && '#' !in sessionId
    ensures QueryGet(SearchOf(LandingUrl(siteUrl, requestId, sessionId)), "session_id") == Some(sessionId)
    ensures QueryGet(SearchOf(LandingUrl(siteUrl, requestId, sessionId)), "request_id") == Some(requestId)
  {
    LandingSearch(siteUrl, requestId, sessionId);
    QueryGetFirst("session_id", sessionId, "request_id" + "=" + requestId);
    QueryGetSkip("session_id", sessionId, "request_id" + "=" + requestId, "request_id");
    QueryGetLast("request_id", requestId);
  }

  predicate HasRequiredFields(b: CheckoutBody) {
    Truthy(b.email) && Truthy(b.requestType) && Truthy(b.data)
  }

  /** The provisional row: what was posted, unpaid, without a session yet. */
  function ProvisionalRow(b: CheckoutBody): StudentRequest {
    StudentRequest(b.email, b.requestType, b.data, false, None)
  }

  /** The request reaches the insert. */
  predicate ReachesInsert(httpMethod: string, body: Option<CheckoutBody>) {
    httpMethod != "OPTIONS" && body.Some? && HasRequiredFields(body.value)
  }

  predicate InsertSucceeds(requests: RequestTable, p: Providers) {
    p.insertFault.None? && p.newId !in requests
  }

  method Serve(httpMethod: string, body: Option<CheckoutBody>, siteUrl: string, requests: RequestTable, p: Providers)
    returns (reply: Reply, requests': RequestTable, sessionRequest: Option<SessionParams>)
    ensures httpMethod == "OPTIONS" ==> reply == Preflight
    ensures httpMethod != "OPTIONS" && body.None? ==> reply == Json(500, false, None, Some(InternalError))
    ensures httpMethod != "OPTIONS" && body.Some? && !HasRequiredFields(body.value)
            ==> reply == Json(400, false, None, Some(MissingFields))
    ensures !ReachesInsert(httpMethod, body) ==> requests' == requests && sessionRequest == None
    ensures ReachesInsert(httpMethod, body) && !InsertSucceeds(requests, p)
            ==> reply == Json(500, false, None, Some(CreateFailed)) && requests' == requests && sessionRequest == None
    // the provisional row is stored unpaid and no other row changes
    ensures ReachesInsert(httpMethod, body) && InsertSucceeds(requests, p)
            ==> && requests'.Keys == requests.Keys + {p.newId}
                && (forall k :: k in requests ==> requests'[k] == requests[k])
                && requests'[p.newId].email == body.value.email
                && requests'[p.newId].requestType == body.value.requestType
                && requests'[p.newId].data == body.value.data
                && !requests'[p.newId].paid
    ensures ReachesInsert(httpMethod, body) && InsertSucceeds(requests, p) && !body.value.requestType.Str?
            ==> && reply == Json(500, false, None, Some(InternalError)) && sessionRequest == None
                && requests'[p.newId].stripeSessionId == None
    ensures ReachesInsert(httpMethod, body) && InsertSucceeds(requests, p) && body.value.requestType.Str?
            ==> && sessionRequest == Some(SessionFor(body.value.requestType.s, siteUrl, p.newId))
                && reply == (if p.session.Some? then Json(200, true, p.session.value.url, None)
                             else Json(500, false, None, Some(InternalError)))
                && requests'[p.newId].stripeSessionId
                   == (if p.session.Some? && p.updateFault.None? then Some(p.session.value.id) else None)
    // this handler never marks a request paid
    ensures forall k :: k in requests' ==> requests'[k].paid == (k in requests && requests[k].paid)
    ensures reply.Json? && reply.success ==> reply.status == 200 && sessionRequest.Some? && p.session.Some?
  {
    requests', sessionRequest := requests, None;
    if httpMethod == "OPTIONS" {
      reply := Preflight;
      return;
    }
    if body.None? {
      // `req.json()` threw
      reply := Json(500, false, None, Some(InternalError));
      return;
    }
    var b := body.value;
    if !Truthy(b.email) || !Truthy(b.requestType) || !Truthy(b.data) {
      reply := Json(400, false, None, Some(MissingFields));
      return;
    }
    var inserted := InsertUnique(requests, p.newId, ProvisionalRow(b), p.insertFault);
    if inserted.1.Some? {
      reply := Json(500, false, None, Some(CreateFailed));
      return;
    }
    requests' := inserted.0;
    if !b.requestType.Str? {
      // `request_type.charAt` is not a function: the catch-all answers
      reply := Json(500, false, None, Some(InternalError));
      return;
    }
    var params := SessionFor(b.requestType.s, siteUrl, p.newId);
    sessionRequest := Some(params);
    if p.session.None? {
      reply := Json(500, false, None, Some(InternalError));
      return;
    }
    var session := p.session.value;
    // a failed update is only logged
    var updated := UpdateById(requests', p.newId, SetSessionId(session.id), p.updateFault);
    requests' := updated.0;
    reply := Json(200, true, session.url, None);
  }
}
