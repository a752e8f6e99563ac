/**
 * The student-hub request wizard: a card (resume, project or ppt) opens a
 * form; "pay" validates it, asks the checkout function for a payment page and
 * parks the form in the browser's storage slot before leaving; on return the
 * page restores the form and asks the confirmation function whether the
 * session was paid; "submit" is accepted only after a confirmed payment and a
 * passing revalidation, then clears the slot and closes the wizard.
 *
 * The network answers are parameters of the methods that await them.
 */
module StudentHub {
  import opened Shared
  import opened Url
  import CheckoutSession

  // ---------------------------------------------------------------------------
  // The email shape `/^[^\s@]+@[^\s@]+\.[^\s@]+$/`

  /** `[^\s@]` */
  predicate PlainChar(c: char) {
    !IsSpace(c) && c != '@'
  }

  /** `s[lo..hi]` matches `[^\s@]+`. */
  ghost predicate Part(s: string, lo: int, hi: int)
    requires 0 <= lo <= hi <= |s|
  {
    lo < hi && forall k :: lo <= k < hi ==> PlainChar(s[k])
  }

  /** What the regular expression accepts: three runs of `[^\s@]+` joined by
    * an `@` and a `.`. */
  ghost predicate MatchesEmailPattern(s: string) {
    exists at, dot :: 0 < at && at + 1 < dot && dot + 1 < |s| && s[at] == '@' && s[dot] == '.'
                      && Part(s, 0, at) && Part(s, at + 1, dot) && Part(s, dot + 1, |s|)
  }

  /** A `.` with text on both sides. */
  predicate HasInnerDot(d: string) {
    exists k :: 0 < k < |d| - 1 && d[k] == '.'
  }

  /** `isEmailValid`: no white space, exactly one `@`, a non-empty local part,
    * and a domain with a `.` that is neither its first nor its last character. */
  predicate IsEmailValid(s: string) {
    var local := BeforeFirst(s, '@');
    && (forall i :: 0 <= i < |s| ==> !IsSpace(s[i]))
    && multiset(s)['@'] == 1
    && 0 < |local| < |s|
    && HasInnerDot(s[|local| + 1..])
  }

  lemma OneAt(a: string, b: string)
    ensures multiset(a + ['@'] + b)['@'] == 1 <==> '@' !in a && '@' !in b
  {
    assert multiset(a + ['@'] + b) == multiset(a) + multiset(['@']) + multiset(b);
  }

  lemma EmailValidImpliesPattern(s: string)
    requires IsEmailValid(s)
    ensures MatchesEmailPattern(s)
  {
    var local := BeforeFirst(s, '@');
    var at := |local|;
    var domain := s[at + 1..];
    assert s == local + ['@'] + domain;
    OneAt(local, domain);
    var k :| 0 < k < |domain| - 1 && domain[k] == '.';
    var dot := at + 1 + k;
    assert s[dot] == '.';
    forall m | 0 <= m < |s| && m != at
      ensures PlainChar(s[m])
    {
      if m < at {
        assert s[m] == local[m];
      } else {
        assert s[m] == domain[m - at - 1];
      }
    }
    assert Part(s, 0, at) && Part(s, at + 1, dot) && Part(s, dot + 1, |s|);
  }

  lemma PatternImpliesEmailValid(s: string, at: int, dot: int)
    requires 0 < at && at + 1 < dot && dot + 1 < |s| && s[at] == '@' && s[dot] == '.'
    requires Part(s, 0, at) && Part(s, at + 1, dot) && Part(s, dot + 1, |s|)
    ensures IsEmailValid(s)
  {
    var local, domain := s[..at], s[at + 1..];
    assert s == local + ['@'] + domain;
    assert '@' !in local by {
      forall m | 0 <= m < |local| ensures local[m] != '@' {
        assert local[m] == s[m];
      }
    }
    assert '@' !in domain by {
      forall m | 0 <= m < |domain| ensures domain[m] != '@' {
        assert domain[m] == s[at + 1 + m];
      }
    }
    OneAt(local, domain);
    BeforeFirstSplit(local, '@', domain);
    assert domain[dot - at - 1] == '.';
    forall i | 0 <= i < |s| ensures !IsSpace(s[i]) {
      if i != at && i != dot {
        assert PlainChar(s[i]);
      }
    }
  }

  /** The characterisation agrees with the regular expression on every string. */
  lemma EmailValidMatchesPattern(s: string)
    ensures IsEmailValid(s) <==> MatchesEmailPattern(s)
  {
    if IsEmailValid(s) {
      EmailValidImpliesPattern(s);
    }
    if MatchesEmailPattern(s) {
      var at, dot :| 0 < at && at + 1 < dot && dot + 1 < |s| && s[at] == '@' && s[dot] == '.'
                     && Part(s, 0, at) && Part(s, at + 1, dot) && Part(s, dot + 1, |s|);
      PatternImpliesEmailValid(s, at, dot);
    }
  }

  // ---------------------------------------------------------------------------
  // Form checks

  const EmailRequired: string := "Email is required"
  const EmailInvalid: string := "Please enter a valid email"

  const NameRequired: string := "Name is required"
  const RoleRequired: string := "Job role is required"
  const TitleRequired: string := "Project title is required"
  const DescriptionRequired: string := "Project description is required"
  const TopicRequired: string := "Topic is required"
  const BriefRequired: string := "Brief description is required"

  /** The fields each card requires besides the email, with their messages. */
  function Required(card: Option<string>): (fields: map<string, string>)
    ensures "email" !in fields
  {
    if card == Some("resume") then map["name" := NameRequired, "role" := RoleRequired]
    else if card == Some("project") then map["title" := TitleRequired, "description" := DescriptionRequired]
    else if card == Some("ppt") then map["topic" := TopicRequired, "brief" := BriefRequired]
    else map[]
  }

  /** The email check: a missing or non-string value is "required", a
    * string of the wrong shape is "invalid", and never both. */
  function EmailError(v: JsValue): (e: Option<string>)
    ensures e == None <==> v.Str? && IsEmailValid(v.s)
    ensures e == Some(EmailRequired) <==> !Truthy(v) || !v.Str?
    ensures e == Some(EmailInvalid) <==> v.Str? && v.s != "" && !IsEmailValid(v.s)
  {
    if !Truthy(v) || !v.Str? then Some(EmailRequired)
    else if !IsEmailValid(v.s) then Some(EmailInvalid)
    else None
  }

  function EmailEntry(form: map<string, JsValue>): map<string, string> {
    var e := EmailError(Get(form, "email"));
    if e.Some? then map["email" := e.value] else map[]
  }

  /** `if (!formState[field]) errors[field] = message` */
  function AddIfMissing(errors: map<string, string>, form: map<string, JsValue>, field: string, message: string)
    : map<string, string>
  {
    if !Truthy(Get(form, field)) then errors[field := message] else errors
  }

  /** The error map `validateForm` builds, check by check. */
  function FormErrors(card: Option<string>, form: map<string, JsValue>): (errors: map<string, string>)
    ensures errors.Keys <= {"email"} + Required(card).Keys
  {
    var e := EmailEntry(form);
    if card == Some("resume") then AddIfMissing(AddIfMissing(e, form, "name", NameRequired), form, "role", RoleRequired)
    else if card == Some("project") then
      AddIfMissing(AddIfMissing(e, form, "title", TitleRequired), form, "description", DescriptionRequired)
    else if card == Some("ppt") then AddIfMissing(AddIfMissing(e, form, "topic", TopicRequired), form, "brief", BriefRequired)
    else e
  }

  /** The map has one entry per failing check, with that check's message; a
    * required field counts as missing when its value is falsy. So the form
    * is valid exactly when the email is and every required field is present. */
  lemma FormErrorsChecks(card: Option<string>, form: map<string, JsValue>)
    ensures var errors := FormErrors(card, form);
            && ("email" in errors <==> EmailError(Get(form, "email")).Some?)
            && ("email" in errors ==> errors["email"] == EmailError(Get(form, "email")).value)
            && (forall f :: f in Required(card) ==> (f in errors <==> !Truthy(Get(form, f))))
            && (forall f :: f in Required(card) && f in errors ==> errors[f] == Required(card)[f])
    ensures FormErrors(card, form) == map[] <==>
              EmailError(Get(form, "email")).None? && forall f :: f in Required(card) ==> Truthy(Get(form, f))
  {
    var errors := FormErrors(card, form);
    if EmailError(Get(form, "email")).None? && forall f :: f in Required(card) ==> Truthy(Get(form, f)) {
      if card == Some("resume") {
        assert "name" in Required(card) && "role" in Required(card);
      } else if card == Some("project") {
        assert "title" in Required(card) && "description" in Required(card);
      } else if card == Some("ppt") {
        assert "topic" in Required(card) && "brief" in Required(card);
      }
    }
  }

  /** `modalTitle` */
  function ModalTitle(card: Option<string>): (title: string)
    ensures card == Some("resume") ==> title == "Resume Maker"
    ensures card == Some("project") ==> title == "Project Builder"
    ensures card == Some("ppt") ==> title == "PPT Creator"
  {
    if card == Some("resume") then "Resume Maker"
    else if card == Some("project") then "Project Builder"
    else if card == Some("ppt") then "PPT Creator"
    else ""
  }

  /** Exactly the cards with a form of their own have a title. */
  lemma TitledIffOwnFields(card: Option<string>)
    ensures ModalTitle(card) != "" <==> Required(card) != map[]
  {
    if card == Some("resume") {
      assert "name" in Required(card);
    } else if card == Some("project") {
      assert "title" in Required(card);
    } else if card == Some("ppt") {
      assert "topic" in Required(card);
    }
  }

  // ---------------------------------------------------------------------------
  // Calls the wizard makes

  /** The body posted to the checkout function. */
  function PayloadFor(card: Option<string>, form: map<string, JsValue>): CheckoutSession.CheckoutBody {
    CheckoutSession.CheckoutBody(
      Str(ToJsString(Get(form, "email"))),
      if card.Some? then Str(card.value) else Null,
      Obj(form))
  }

  /** A form that passes the client check also passes the checkout function's
    * required-field check, and carries the entered email unchanged. */
  lemma ValidPayloadAccepted(card: Option<string>, form: map<string, JsValue>)
    requires FormErrors(card, form) == map[] && card.Some? && card.value != ""
    ensures CheckoutSession.HasRequiredFields(PayloadFor(card, form))
    ensures PayloadFor(card, form).email == Get(form, "email")
  {
    FormErrorsChecks(card, form);
    var e := Get(form, "email");
    assert e.Str? && IsEmailValid(e.s);
    assert ToJsString(e) == e.s;
  }

  /** The query sent to the confirmation function. */
  datatype ConfirmCall = ConfirmCall(sessionId: string, requestId: string)

  /** `await (await fetch(..)).json()`: a parsed body, or a rejection. */
  datatype FetchJson = Answered(json: JsValue) | FetchFailed

  predicate PaidAnswer(answer: FetchJson) {
    answer.Answered? && Truthy(Field(answer.json, "success")) && Truthy(Field(answer.json, "paid"))
  }

  predicate CheckoutAnswer(answer: FetchJson) {
    answer.Answered? && Truthy(Field(answer.json, "success")) && Truthy(Field(answer.json, "url"))
  }

  // ---------------------------------------------------------------------------
  // State

  /** The value parked in the `pendingFormState` storage slot. */
  datatype Pending = Pending(formState: map<string, JsValue>, activeCard: Option<string>)

  /** The part of the browser the wizard uses: the storage slot, the current
    * query (`location.search` without its `?`) and any navigation away. */
  class Browser {
    var pendingFormState: Option<Pending>
    var search: string
    var navigatedTo: Option<string>

    constructor(search: string)
      ensures this.search == search && pendingFormState == None && navigatedTo == None
    {
      this.search := search;
      pendingFormState := None;
      navigatedTo := None;
    }
  }

  datatype SubmitOutcome = NotPaid | Invalid | Submitted

  class Hub {
    var activeCard: Option<string>
    var formState: map<string, JsValue>
    var processingPay: bool
    var paidConfirmed: bool
    var formErrors: map<string, string>

    /** No card open, nothing entered, nothing paid. */
    predicate Closed()
      reads this
    {
      activeCard == None && formState == map[] && !processingPay && !paidConfirmed
    }

    constructor()
      ensures Closed() && formErrors == map[]
    {
      activeCard := None;
      formState := map[];
      processingPay := false;
      paidConfirmed := false;
      formErrors := map[];
    }

    /** `openCard`: a fresh form for the card; an earlier payment no longer counts.
      * The processing flag and the shown errors are left as they were. */
    method OpenCard(key: string)
      modifies this
      ensures activeCard == Some(key) && formState == map[] && !paidConfirmed
      ensures processingPay == old(processingPay) && formErrors == old(formErrors)
    {
      activeCard := Some(key);
      formState := map[];
      paidConfirmed := false;
    }

    /** `closeModal` */
    method CloseModal()
      modifies this
      ensures Closed()
      ensures formErrors == old(formErrors)
    {
      activeCard := None;
      formState := map[];
      processingPay := false;
      paidConfirmed := false;
    }

    /** An input's `onChange`: `{...formState, [key]: value}`. */
    method EditField(key: string, value: string)
      modifies this
      ensures formState == old(formState)[key := Str(value)]
      ensures activeCard == old(activeCard) && processingPay == old(processingPay)
      ensures paidConfirmed == old(paidConfirmed) && formErrors == old(formErrors)
    {
      formState := formState[key := Str(value)];
    }

    /** `validateForm`: builds the error map check by check, shows it, and
      * reports whether it is empty. */
    method ValidateForm() returns (ok: bool)
      modifies this
      ensures formErrors == FormErrors(activeCard, formState)
      ensures ok <==> formErrors == map[]
      ensures activeCard == old(activeCard) && formState == old(formState)
      ensures processingPay == old(processingPay) && paidConfirmed == old(paidConfirmed)
    {
      var errors: map<string, string> := map[];
      var email := Get(formState, "email");
      if !Truthy(email) || !email.Str? {
        errors := errors["email" := EmailRequired];
      } else if !IsEmailValid(email.s) {
        errors := errors["email" := EmailInvalid];
      }
      assert errors == EmailEntry(formState);
      ghost var e := errors;
      if activeCard == Some("resume") {
        if !Truthy(Get(formState, "name")) { errors := errors["name" := NameRequired]; }
        assert errors == AddIfMissing(e, formState, "name", NameRequired);
        e := errors;
        if !Truthy(Get(formState, "role")) { errors := errors["role" := RoleRequired]; }
        assert errors == AddIfMissing(e, formState, "role", RoleRequired);
      } else if activeCard == Some("project") {
        if !Truthy(Get(formState, "title")) { errors := errors["title" := TitleRequired]; }
        assert errors == AddIfMissing(e, formState, "title", TitleRequired);
        e := errors;
        if !Truthy(Get(formState, "description")) { errors := errors["description" := DescriptionRequired]; }
        assert errors == AddIfMissing(e, formState, "description", DescriptionRequired);
      } else if activeCard == Some("ppt") {
        if !Truthy(Get(formState, "topic")) { errors := errors["topic" := TopicRequired]; }
        assert errors == AddIfMissing(e, formState, "topic", TopicRequired);
        e := errors;
        if !Truthy(Get(formState, "brief")) { errors := errors["brief" := BriefRequired]; }
        assert errors == AddIfMissing(e, formState, "brief", BriefRequired);
      }
      formErrors := errors;
      ok := |errors| == 0;
    }

    /** The mount effect: restore a parked form, then, when the query has a
      * `session_id`, ask the confirmation function (whose answer is `answer`).
      * Only a paid answer confirms the payment and clears the query. */
    method Mount(browser: Browser, answer: FetchJson) returns (call: Option<ConfirmCall>)
      modifies this, browser
      ensures old(browser.pendingFormState).Some? ==>
                formState == old(browser.pendingFormState).value.formState
                && activeCard == old(browser.pendingFormState).value.activeCard
      ensures old(browser.pendingFormState).None? ==> formState == old(formState) && activeCard == old(activeCard)
      ensures var sid := QueryGet(old(browser.search), "session_id");
              var rid := QueryGet(old(browser.search), "request_id");
              call == if sid.Some? && sid.value != ""
                      then Some(ConfirmCall(sid.value, if rid.Some? then rid.value else ""))
                      else None
      ensures paidConfirmed == (old(paidConfirmed) || (call.Some? && PaidAnswer(answer)))
      ensures browser.search == if call.Some? && PaidAnswer(answer) then "" else old(browser.search)
      ensures browser.pendingFormState == old(browser.pendingFormState)
      ensures browser.navigatedTo == old(browser.navigatedTo)
      ensures processingPay == old(processingPay) && formErrors == old(formErrors)
    {
      if browser.pendingFormState.Some? {
        formState := browser.pendingFormState.value.formState;
        activeCard := browser.pendingFormState.value.activeCard;
      }
      var sessionId := QueryGet(browser.search, "session_id");
      var requestId := QueryGet(browser.search, "request_id");
      call := None;
      if sessionId.Some? && sessionId.value != "" {
        call := Some(ConfirmCall(sessionId.value, if requestId.Some? then requestId.value else ""));
        if PaidAnswer(answer) {
          paidConfirmed := true;
          // `history.replaceState` to the bare path
          browser.search := "";
        }
      }
    }

    /** `handleStartPayment`: nothing is sent when the form is invalid;
      * otherwise the payload goes to the checkout function (whose answer is
      * `answer`), and only an answer with both `success` and `url` parks the
      * form and leaves for the payment page. */
    method StartPayment(browser: Browser, answer: FetchJson) returns (payload: Option<CheckoutSession.CheckoutBody>)
      modifies this, browser
      ensures formErrors == FormErrors(activeCard, formState)
      ensures activeCard == old(activeCard) && formState == old(formState) && paidConfirmed == old(paidConfirmed)
      ensures formErrors != map[] ==>
                payload == None && processingPay == old(processingPay)
                && browser.pendingFormState == old(browser.pendingFormState)
                && browser.navigatedTo == old(browser.navigatedTo)
      ensures formErrors == map[] ==> payload == Some(PayloadFor(activeCard, formState)) && !processingPay
      ensures formErrors == map[] && CheckoutAnswer(answer) ==>
                browser.pendingFormState == Some(Pending(formState, activeCard))
                && browser.navigatedTo == Some(ToJsString(Field(answer.json, "url")))
      ensures !(formErrors == map[] && CheckoutAnswer(answer)) ==>
                browser.pendingFormState == old(browser.pendingFormState)
                && browser.navigatedTo == old(browser.navigatedTo)
      ensures browser.search == old(browser.search)
    {
      var ok := ValidateForm();
      if !ok {
        return None;
      }
      processingPay := true;
      payload := Some(PayloadFor(activeCard, formState));
      if CheckoutAnswer(answer) {
        browser.pendingFormState := Some(Pending(formState, activeCard));
        browser.navigatedTo := Some(ToJsString(Field(answer.json, "url")));
      }
      // `finally`
      processingPay := false;
    }

    /** `handleSubmit`: refused before any validation unless the payment was
      * confirmed; then refused if the form no longer validates; otherwise the
      * slot is cleared and the wizard closes. */
    method Submit(browser: Browser) returns (outcome: SubmitOutcome)
      modifies this, browser
      ensures !old(paidConfirmed) ==>
                outcome == NotPaid && formErrors == old(formErrors)
                && activeCard == old(activeCard) && formState == old(formState)
                && processingPay == old(processingPay) && !paidConfirmed
      ensures old(paidConfirmed) ==> formErrors == FormErrors(old(activeCard), old(formState))
      ensures outcome == Submitted <==> old(paidConfirmed) && FormErrors(old(activeCard), old(formState)) == map[]
      ensures outcome == Invalid ==>
                activeCard == old(activeCard) && formState == old(formState)
                && processingPay == old(processingPay) && paidConfirmed
      ensures outcome == Submitted ==> Closed() && browser.pendingFormState == None
      ensures outcome != Submitted ==> browser.pendingFormState == old(browser.pendingFormState)
      ensures browser.search == old(browser.search) && browser.navigatedTo == old(browser.navigatedTo)
    {
      if !paidConfirmed {
        return NotPaid;
      }
      var ok := ValidateForm();
      if !ok {
        return Invalid;
      }
      browser.pendingFormState := None;
      CloseModal();
      outcome := Submitted;
    }
  }

  // ---------------------------------------------------------------------------
  // Runs of the wizard

  lemma SampleEmailValid()
    ensures IsEmailValid("a@b.com")
  {
    var s := "a@b.com";
    assert s[1] == '@' && s[3] == '.';
    assert Part(s, 0, 1) && Part(s, 2, 3) && Part(s, 4, |s|);
    EmailValidMatchesPattern(s);
  }

  /** The ppt form of the full cycle. */
  function PptForm(): map<string, JsValue> {
    map["topic" := Str("AI"), "brief" := Str("intro"), "email" := Str("a@b.com")]
  }

  /** A form whose email is valid contributes no email entry. */
  lemma ValidEmailNoEntry(form: map<string, JsValue>, email: string)
    requires Get(form, "email") == Str(email) && IsEmailValid(email)
    ensures EmailEntry(form) == map[]
  {
  }

  /** The ppt card's checks: the email, then the topic, then the brief. */
  lemma PptChecks(form: map<string, JsValue>)
    ensures FormErrors(Some("ppt"), form)
            == AddIfMissing(AddIfMissing(EmailEntry(form), form, "topic", TopicRequired), form, "brief", BriefRequired)
  {
  }

  lemma ResumeChecks(form: map<string, JsValue>)
    ensures FormErrors(Some("resume"), form)
            == AddIfMissing(AddIfMissing(EmailEntry(form), form, "name", NameRequired), form, "role", RoleRequired)
  {
  }

  lemma PptFormValid()
    ensures FormErrors(Some("ppt"), PptForm()) == map[]
  {
    var f := PptForm();
    assert Get(f, "topic") == Str("AI") && Get(f, "brief") == Str("intro");
    assert Get(f, "email") == Str("a@b.com");
    SampleEmailValid();
    ValidEmailNoEntry(f, "a@b.com");
    PptChecks(f);
    var e := EmailEntry(f);
    assert AddIfMissing(e, f, "topic", TopicRequired) == e;
    assert AddIfMissing(e, f, "brief", BriefRequired) == e;
  }

  /** A resume form with the role left empty. */
  function ResumeForm(): map<string, JsValue> {
    map["name" := Str("Ada"), "role" := Str(""), "email" := Str("a@b.com")]
  }

  lemma ResumeFormMissesRole()
    ensures FormErrors(Some("resume"), ResumeForm()) == map["role" := RoleRequired]
  {
    var f := ResumeForm();
    assert Get(f, "name") == Str("Ada") && Get(f, "role") == Str("");
    assert Get(f, "email") == Str("a@b.com");
    SampleEmailValid();
    ValidEmailNoEntry(f, "a@b.com");
    ResumeChecks(f);
    var e := EmailEntry(f);
    assert AddIfMissing(e, f, "name", NameRequired) == e;
    assert AddIfMissing(e, f, "role", RoleRequired) == e["role" := RoleRequired];
  }

  /** The checkout function's answer `{success: true, url}`. */
  function CheckoutReply(): FetchJson {
    Answered(Obj(map["success" := Bool(true), "url" := Str("https://checkout.stripe.com/c/pay/cs_1")]))
  }

  lemma CheckoutReplyAccepted()
    ensures CheckoutAnswer(CheckoutReply())
  {
    var m := CheckoutReply().json.fields;
    assert "success" in m && m["success"] == Bool(true);
    assert "url" in m && m["url"].Str? && |m["url"].s| > 0;
  }

  /** The confirmation function's answer `{success: true, paid: true}`. */
  function PaidReply(): FetchJson {
    Answered(Obj(map["success" := Bool(true), "paid" := Bool(true)]))
  }

  lemma PaidReplyAccepted()
    ensures PaidAnswer(PaidReply())
  {
    var m := PaidReply().json.fields;
    assert "success" in m && m["success"] == Bool(true);
    assert "paid" in m && m["paid"] == Bool(true);
  }

  const SiteUrl: string := "https://innovbridge.tech"

  /** The page the payment provider returns to names session "cs_1" and request "r1". */
  lemma ReturnCarriesIds()
    ensures var search := SearchOf(CheckoutSession.LandingUrl(SiteUrl, "r1", "cs_1"));
            QueryGet(search, "session_id") == Some("cs_1") && QueryGet(search, "request_id") == Some("r1")
  {
    CheckoutSession.LandingUrlCarriesIds(SiteUrl, "r1", "cs_1");
  }

  /** A resume with an empty role is refused before any call: nothing is sent,
    * nothing is parked, and the role's message is shown. */
  method ResumeWithoutRole() returns (payload: Option<CheckoutSession.CheckoutBody>, errors: map<string, string>, slot: Option<Pending>)
    ensures payload == None && slot == None
    ensures "role" in errors && errors["role"] == "Job role is required" && "name" !in errors
  {
    var hub := new Hub();
    var browser := new Browser("");
    hub.OpenCard("resume");
    hub.EditField("name", "Ada");
    hub.EditField("role", "");
    hub.EditField("email", "a@b.com");
    assert hub.formState == ResumeForm();
    ResumeFormMissesRole();
    payload := hub.StartPayment(browser, FetchFailed);
    errors, slot := hub.formErrors, browser.pendingFormState;
  }

  /** A checkout call that fails keeps the wizard where it was, with the form
    * as entered, and parks nothing. */
  method FailedCheckoutKeepsForm() returns (hub: Hub, browser: Browser, payload: Option<CheckoutSession.CheckoutBody>)
    ensures payload.Some? && hub.activeCard == Some("ppt") && hub.formErrors == map[]
    ensures hub.formState == PptForm()
    ensures !hub.processingPay && !hub.paidConfirmed
    ensures browser.pendingFormState == None && browser.navigatedTo == None
  {
    hub := new Hub();
    browser := new Browser("");
    hub.OpenCard("ppt");
    hub.EditField("topic", "AI");
    hub.EditField("brief", "intro");
    hub.EditField("email", "a@b.com");
    assert hub.formState == PptForm();
    PptFormValid();
    payload := hub.StartPayment(browser, Answered(Obj(map["success" := Bool(false), "error" := Str("Internal server error")])));
  }

  /** The whole cycle for a ppt request: pay, leave with the form parked,
    * return from the payment page with the session and request ids, confirm,
    * and submit. */
  method PptCycle() returns (payload: Option<CheckoutSession.CheckoutBody>, parked: Option<Pending>,
                             call: Option<ConfirmCall>, outcome: SubmitOutcome, slot: Option<Pending>, closed: bool)
    ensures payload == Some(CheckoutSession.CheckoutBody(Str("a@b.com"), Str("ppt"),
              Obj(PptForm())))
    ensures parked == Some(Pending(PptForm(), Some("ppt")))
    ensures call == Some(ConfirmCall("cs_1", "r1"))
    ensures outcome == Submitted && slot == None && closed
  {
    var hub := new Hub();
    var browser := new Browser("");
    hub.OpenCard("ppt");
    hub.EditField("topic", "AI");
    hub.EditField("brief", "intro");
    hub.EditField("email", "a@b.com");
    assert hub.formState == PptForm();
    PptFormValid();
    CheckoutReplyAccepted();
    payload := hub.StartPayment(browser, CheckoutReply());
    parked := browser.pendingFormState;

    // the payment page sends the browser back to the success URL; the page loads afresh
    ReturnCarriesIds();
    browser.search := SearchOf(CheckoutSession.LandingUrl(SiteUrl, "r1", "cs_1"));
    var back := new Hub();
    PaidReplyAccepted();
    call := back.Mount(browser, PaidReply());
    assert back.paidConfirmed;
    outcome := back.Submit(browser);
    slot := browser.pendingFormState;
    closed := back.Closed();
  }
}
