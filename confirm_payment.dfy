/**
 * The `confirm-payment` serverless handler. The page calls it on return from
 * the payment provider with `session_id` and `request_id` in the query; it
 * asks the provider for the session, looks the request up, and when the
 * session is paid marks the request paid, posts the follow-up emails, adds a
 * history entry and answers success. The emails and the history entry are
 * best effort: their failures never change the answer.
 *
 * Every outside answer is an input (`Providers`); the handler returns its
 * reply, the two tables after its writes, and the email posts it made.
 */
module ConfirmPayment {
  import opened Shared
  import opened Store
  import opened Url
  import CheckoutSession

  const MissingParams: string := "Missing session_id or request_id"
  const NotConfirmedText: string := "Payment not confirmed"
  const ConfirmedText: string := "Payment confirmed and request updated"
  const InternalError: string := "Internal server error"
  const HistoryStatus: string := "processing"
  const HistoryNotes: string := "Payment confirmed via Stripe"

  /** The retrieved checkout session, as far as the handler reads it. */
  datatype CheckoutRecord = CheckoutRecord(paymentStatus: string)

  /** A `fetch` resolves (whatever the HTTP status) or rejects. */
  datatype Fetch = Delivered | NetworkError

  /** A row of `student_request_history`. */
  datatype HistoryEntry = HistoryEntry(requestId: string, status: string, notes: string)

  datatype DbState = DbState(requests: RequestTable, history: seq<HistoryEntry>)

  /** One POST to the email function: its `type`, its `to`, and the rest of its body. */
  datatype EmailPost = EmailPost(kind: string, to: JsValue, payload: JsValue)

  /** The outside answers during one call: the session the provider returns
    * (None: `retrieve` throws), the store's faults, and whether the first
    * email post rejects. */
  datatype Providers = Providers(
    retrieved: Option<CheckoutRecord>,
    lookupFault: Option<DbError>,
    updateFault: Option<DbError>,
    firstPost: Fetch,
    historyFault: Option<DbError>,
    reselectFault: Option<DbError>)

  datatype Reply =
    | Preflight
    | Json(status: nat, success: bool, paid: Option<bool>, text: string)

  const Confirmed: Reply := Json(200, true, Some(true), ConfirmedText)
  const NotConfirmed: Reply := Json(200, false, Some(false), NotConfirmedText)
  const Internal: Reply := Json(500, false, None, InternalError)

  /** `url.searchParams.get(key)` when it is truthy, that is present and non-empty. */
  function Param(url: string, key: string): (v: Option<string>)
    ensures v.Some? ==> v.value != "" && QueryGet(SearchOf(url), key) == v
    ensures v.None? ==> QueryGet(SearchOf(url), key) in {None, Some("")}
  {
    var got := QueryGet(SearchOf(url), key);
    if got.Some? && got.value != "" then got else None
  }

  predicate ParamsPresent(url: string) {
    Param(url, "session_id").Some? && Param(url, "request_id").Some?
  }

  function SessionIdOf(url: string): string
    requires ParamsPresent(url)
  {
    Param(url, "session_id").value
  }

  function RequestIdOf(url: string): string
    requires ParamsPresent(url)
  {
    Param(url, "request_id").value
  }

  /** The request passes every check before the update: both parameters, a
    * retrievable session, a row found by `.single()`, and `payment_status`
    * equal to "paid". Nothing here looks at who the session was created for. */
  predicate Admitted(httpMethod: string, url: string, requests: RequestTable, p: Providers) {
    && httpMethod != "OPTIONS"
    && ParamsPresent(url)
    && p.retrieved.Some?
    && p.lookupFault.None? && RequestIdOf(url) in requests
    && p.retrieved.value.paymentStatus == "paid"
  }

  /** The amount line is not modelled. */
  function PaymentSuccessPost(row: StudentRequest, sessionId: string): EmailPost {
    EmailPost("payment_success", row.email,
      Obj(map["name" := Field(row.data, "name"),
              "requestData" := Obj(map["service" := row.requestType, "transactionId" := Str(sessionId)])]))
  }

  /** The `type` of the second post is the request kind followed by `_request`. */
  function ServiceRequestPost(row: StudentRequest): EmailPost {
    EmailPost(ToJsString(row.requestType) + "_request", row.email, Obj(map["requestData" := row.data]))
  }

  function PaymentConfirmationPost(row: StudentRequest): EmailPost {
    EmailPost("payment_confirmation", row.email,
      Obj(map["data" := Obj(map["request_type" := row.requestType, "details" := row.data])]))
  }

  /** The checks from the parameters to the paid decision, in the handler's
    * order; `early` is the answer when one of them ends the request. */
  method Admit(httpMethod: string, url: string, requests: RequestTable, p: Providers)
    returns (early: Option<Reply>, sessionId: string, requestId: string)
    ensures early.None? <==> Admitted(httpMethod, url, requests, p)
    ensures early.None? ==> sessionId == SessionIdOf(url) && requestId == RequestIdOf(url) && requestId in requests
    ensures httpMethod == "OPTIONS" ==> early == Some(Preflight)
    ensures httpMethod != "OPTIONS" && !ParamsPresent(url) ==> early == Some(Json(400, false, None, MissingParams))
    // the lookup comes before the paid check: a failed lookup is a 500 even for an unpaid session
    ensures httpMethod != "OPTIONS" && ParamsPresent(url)
            && (p.retrieved.None? || p.lookupFault.Some? || RequestIdOf(url) !in requests)
            ==> early == Some(Internal)
    ensures httpMethod != "OPTIONS" && ParamsPresent(url) && p.retrieved.Some?
            && p.lookupFault.None? && RequestIdOf(url) in requests
            && p.retrieved.value.paymentStatus != "paid"
            ==> early == Some(NotConfirmed)
  {
    sessionId, requestId := "", "";
    if httpMethod == "OPTIONS" {
      return Some(Preflight), sessionId, requestId;
    }
    var sid := Param(url, "session_id");
    var rid := Param(url, "request_id");
    if sid.None? || rid.None? {
      return Some(Json(400, false, None, MissingParams)), sessionId, requestId;
    }
    sessionId, requestId := sid.value, rid.value;
    if p.retrieved.None? {
      return Some(Internal), sessionId, requestId;
    }
    var isPaid := p.retrieved.value.paymentStatus == "paid";
    if p.lookupFault.Some? || requestId !in requests {
      // `.single()` reports an error when no row matches
      return Some(Internal), sessionId, requestId;
    }
    if !isPaid {
      return Some(NotConfirmed), sessionId, requestId;
    }
    early := None;
  }

  /** Everything after the paid decision: the update, which may fail the
    * request, then the best-effort emails and history entry. */
  method Settle(sessionId: string, requestId: string, db: DbState, p: Providers)
    returns (reply: Reply, db': DbState, posts: seq<EmailPost>)
    requires requestId in db.requests
    ensures p.updateFault.Some? ==> reply == Internal && db' == db && posts == []
    ensures p.updateFault.None? ==> reply == Confirmed
    ensures p.updateFault.None? ==>
            && db'.requests == db.requests[requestId := db.requests[requestId].(paid := true)]
            && db'.history == db.history
               + (if p.historyFault.None? then [HistoryEntry(requestId, HistoryStatus, HistoryNotes)] else [])
    ensures p.updateFault.None? ==>
            var row := db.requests[requestId];
            && |posts| == 1 + (if p.firstPost.Delivered? then 1 else 0) + (if p.reselectFault.None? then 1 else 0)
            && posts[0] == PaymentSuccessPost(row, sessionId)
            && (p.firstPost.Delivered? ==> posts[1] == ServiceRequestPost(row))
            && (p.reselectFault.None? ==> posts[|posts| - 1] == PaymentConfirmationPost(row))
            && (forall i :: 0 <= i < |posts| ==> posts[i].to == row.email)
  {
    var updated := UpdateById(db.requests, requestId, SetPaid, p.updateFault);
    if updated.1.Some? {
      return Internal, db, [];
    }
    var row := db.requests[requestId];
    posts := [PaymentSuccessPost(row, sessionId)];
    if p.firstPost.Delivered? {
      // a rejected first post skips the second; the catch swallows it
      posts := posts + [ServiceRequestPost(row)];
    }
    var history := Append(db.history, HistoryEntry(requestId, HistoryStatus, HistoryNotes), p.historyFault);
    db' := DbState(updated.0, history.0);
    if p.reselectFault.None? {
      var again := db'.requests[requestId];
      posts := posts + [PaymentConfirmationPost(again)];
    }
    reply := Confirmed;
  }

  /** The handler as written. */
  method Serve(httpMethod: string, url: string, db: DbState, p: Providers)
    returns (reply: Reply, db': DbState, posts: seq<EmailPost>)
    ensures httpMethod == "OPTIONS" ==> reply == Preflight
    ensures httpMethod != "OPTIONS" && !ParamsPresent(url) ==> reply == Json(400, false, None, MissingParams)
    ensures !Admitted(httpMethod, url, db.requests, p) ==> db' == db && posts == []
    ensures reply == Confirmed <==> Admitted(httpMethod, url, db.requests, p) && p.updateFault.None?
    // a failed retrieve or lookup is a 500, even for an unpaid session
    ensures httpMethod != "OPTIONS" && ParamsPresent(url)
            && (p.retrieved.None? || p.lookupFault.Some? || RequestIdOf(url) !in db.requests)
            ==> reply == Internal
    ensures httpMethod != "OPTIONS" && ParamsPresent(url) && p.retrieved.Some?
            && p.lookupFault.None? && RequestIdOf(url) in db.requests
            && p.retrieved.value.paymentStatus != "paid"
            ==> reply == NotConfirmed
    ensures Admitted(httpMethod, url, db.requests, p) && p.updateFault.Some? ==> reply == Internal && db' == db
    // the paid flag is set on the named row only, and only for a paid session
    ensures db'.requests.Keys == db.requests.Keys
    ensures forall k :: k in db.requests ==>
              db'.requests[k] == if reply == Confirmed && k == RequestIdOf(url)
                                 then db.requests[k].(paid := true) else db.requests[k]
    ensures Admitted(httpMethod, url, db.requests, p) && p.updateFault.None? ==>
              && |posts| >= 1 && posts[0] == PaymentSuccessPost(db.requests[RequestIdOf(url)], SessionIdOf(url))
              && db'.history == db.history
                 + (if p.historyFault.None? then [HistoryEntry(RequestIdOf(url), HistoryStatus, HistoryNotes)] else [])
  {
    var early, sessionId, requestId := Admit(httpMethod, url, db.requests, p);
    if early.Some? {
      return early.value, db, [];
    }
    reply, db', posts := Settle(sessionId, requestId, db, p);
  }

  /** The handler with the missing check added: the session must be the one
    * created for this request. */
  method ServeTied(httpMethod: string, url: string, db: DbState, p: Providers)
    returns (reply: Reply, db': DbState, posts: seq<EmailPost>)
    ensures httpMethod == "OPTIONS" ==> reply == Preflight
    ensures httpMethod != "OPTIONS" && !ParamsPresent(url) ==> reply == Json(400, false, None, MissingParams)
    ensures reply == Confirmed <==>
              && Admitted(httpMethod, url, db.requests, p)
              && db.requests[RequestIdOf(url)].stripeSessionId == Some(SessionIdOf(url))
              && p.updateFault.None?
    ensures Admitted(httpMethod, url, db.requests, p)
            && db.requests[RequestIdOf(url)].stripeSessionId != Some(SessionIdOf(url))
            ==> reply == NotConfirmed && db' == db && posts == []
    // a failed retrieve or lookup is a 500, even for an unpaid session
    ensures httpMethod != "OPTIONS" && ParamsPresent(url)
            && (p.retrieved.None? || p.lookupFault.Some? || RequestIdOf(url) !in db.requests)
            ==> reply == Internal
    ensures httpMethod != "OPTIONS" && ParamsPresent(url) && p.retrieved.Some?
            && p.lookupFault.None? && RequestIdOf(url) in db.requests
            && p.retrieved.value.paymentStatus != "paid"
            ==> reply == NotConfirmed
    ensures Admitted(httpMethod, url, db.requests, p)
            && db.requests[RequestIdOf(url)].stripeSessionId == Some(SessionIdOf(url))
            && p.updateFault.Some?
            ==> reply == Internal && db' == db
    ensures db'.requests.Keys == db.requests.Keys
    ensures forall k :: k in db.requests ==>
              db'.requests[k] == if reply == Confirmed && k == RequestIdOf(url)
                                 then db.requests[k].(paid := true) else db.requests[k]
  {
    var early, sessionId, requestId := Admit(httpMethod, url, db.requests, p);
    if early.Some? {
      return early.value, db, [];
    }
    if db.requests[requestId].stripeSessionId != Some(sessionId) {
      return NotConfirmed, db, [];
    }
    reply, db', posts := Settle(sessionId, requestId, db, p);
  }

  /** A request row whose checkout created session "cs_A", and a return URL
    * naming that row with someone else's paid session "cs_B". */
  function VictimTable(): RequestTable {
    map["r1" := StudentRequest(Str("a@b.co"), Str("resume"), Obj(map[]), false, Some("cs_A"))]
  }

  function ForeignUrl(): string {
    CheckoutSession.LandingUrl("https://innovbridge.tech", "r1", "cs_B")
  }

  const PaidSession: Providers := Providers(Some(CheckoutRecord("paid")), None, None, Delivered, None, None)

  lemma ForeignUrlParams()
    ensures ParamsPresent(ForeignUrl()) && SessionIdOf(ForeignUrl()) == "cs_B" && RequestIdOf(ForeignUrl()) == "r1"
  {
    CheckoutSession.LandingUrlCarriesIds("https://innovbridge.tech", "r1", "cs_B");
  }

  /** As written, a paid session of another checkout marks the row paid. */
  method ForeignSessionAccepted() returns (reply: Reply, db': DbState)
    ensures reply == Confirmed && "r1" in db'.requests && db'.requests["r1"].paid
    ensures ParamsPresent(ForeignUrl()) && SessionIdOf(ForeignUrl()) == "cs_B"
    ensures VictimTable()["r1"].stripeSessionId == Some("cs_A")
  {
    ForeignUrlParams();
    var url, db := ForeignUrl(), DbState(VictimTable(), []);
    assert Admitted("GET", url, db.requests, PaidSession);
    var posts;
    reply, db', posts := Serve("GET", url, db, PaidSession);
    assert "r1" in db.requests && RequestIdOf(url) == "r1";
  }

  /** With the check added, the same call is refused and nothing changes. */
  method ForeignSessionRefused() returns (reply: Reply, db': DbState)
    ensures reply == NotConfirmed && db' == DbState(VictimTable(), [])
  {
    ForeignUrlParams();
    var posts;
    reply, db', posts := ServeTied("GET", ForeignUrl(), DbState(VictimTable(), []), PaidSession);
  }

  /** Returning to the page twice confirms twice: the table ends as after the
    * first call, but the history gains a second entry and the emails go out again. */
  method ConfirmTwice(url: string, db: DbState, p: Providers)
    returns (first: DbState, second: DbState, posts1: seq<EmailPost>, posts2: seq<EmailPost>)
    requires Admitted("GET", url, db.requests, p) && p.updateFault.None? && p.historyFault.None?
    ensures second.requests == first.requests
    ensures |second.history| == |db.history| + 2
    ensures |posts1| >= 1 && |posts2| >= 1 && posts2[0] == posts1[0]
  {
    var r1, r2;
    r1, first, posts1 := Serve("GET", url, db, p);
    var rid := RequestIdOf(url);
    PaidRowStillAdmitted(url, db.requests, p);
    r2, second, posts2 := Serve("GET", url, first, p);
    PaidTwice(db.requests, rid);
  }

  /** Marking the row paid does not change what admits the call. */
  lemma PaidRowStillAdmitted(url: string, requests: RequestTable, p: Providers)
    requires Admitted("GET", url, requests, p)
    ensures Admitted("GET", url, requests[RequestIdOf(url) := requests[RequestIdOf(url)].(paid := true)], p)
  {
  }

  /** Setting the flag a second time leaves the table as it is. */
  lemma PaidTwice(requests: RequestTable, rid: string)
    requires rid in requests
    ensures var once := requests[rid := requests[rid].(paid := true)];
            once[rid := once[rid].(paid := true)] == once
  {
  }
}
