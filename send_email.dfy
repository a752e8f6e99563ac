/**
 * The `send-email` serverless function: it picks a template by the posted
 * `type`, sends the message through the mail provider's HTTP API, sends a copy
 * to the site's own address for contact notifications, and answers with the
 * result of the first send. The HTML around the interpolated values is not
 * modelled; a template's body records exactly the values it interpolates.
 */
module SendEmail {
  import opened Shared

  /** The sender and the site's own inbox. */
  const OwnAddress: string := "hello@innovbridge.tech"

  const NewsletterWelcome: string := "newsletter_welcome"
  const CommunityWelcome: string := "community_welcome"
  const ContactConfirmation: string := "contact_confirmation"
  const ContactNotification: string := "contact_notification"

  const KnownKinds: set<string> := {NewsletterWelcome, CommunityWelcome, ContactConfirmation, ContactNotification}

  const NewsletterSubject: string := "Welcome to InnovBridge \U{1F310}"
  const CommunitySubject: string := "Welcome to the InnovBridge Community \U{1F680}"
  const ConfirmationSubject: string := "We received your message - InnovBridge"
  const NotificationPrefix: string := "New Contact Message from "
  const FallbackSubject: string := "InnovBridge"

  const SentText: string := "Email sent successfully"
  const NotSentText: string := "Failed to send email"

  /** The values the templates interpolate: `{name, subject, message, to}`. */
  datatype TemplateData = TemplateData(name: JsValue, subject: JsValue, message: JsValue, to: JsValue)

  /** A template body, reduced to the text it interpolates. */
  datatype Body =
    | NewsletterWelcomeBody
    | CommunityWelcomeBody
    | ConfirmationBody(greetingName: string, subjectLine: string, messageText: string)
    | NotificationBody(name: string, email: string, subjectLine: string, messageText: string, replyTo: string)
    | FallbackBody

  datatype Template = Template(subject: string, body: Body)

  /** `getEmailTemplate(type, data)`: the entry of the template table under
    * `String(type)`, or the fallback. */
  function TemplateFor(kind: JsValue, data: TemplateData): (t: Template)
    ensures ToJsString(kind) !in KnownKinds ==> t == Template(FallbackSubject, FallbackBody)
    ensures ToJsString(kind) == NewsletterWelcome ==> t == Template(NewsletterSubject, NewsletterWelcomeBody)
    ensures ToJsString(kind) == CommunityWelcome ==> t == Template(CommunitySubject, CommunityWelcomeBody)
    ensures ToJsString(kind) == ContactConfirmation ==>
              && t.subject == ConfirmationSubject
              && t.body == ConfirmationBody(OrText(data.name, "there"), OrText(data.subject, "N/A"), OrText(data.message, "N/A"))
    ensures ToJsString(kind) == ContactNotification ==>
              && t.subject == NotificationPrefix + OrText(data.name, "Unknown")
              && t.body == NotificationBody(OrText(data.name, "N/A"), OrText(data.to, "N/A"),
                                            OrText(data.subject, "N/A"), OrText(data.message, "N/A"),
                                            ToJsString(data.to))
  {
    var key := ToJsString(kind);
    if key == NewsletterWelcome then Template(NewsletterSubject, NewsletterWelcomeBody)
    else if key == CommunityWelcome then Template(CommunitySubject, CommunityWelcomeBody)
    else if key == ContactConfirmation then
      Template(ConfirmationSubject,
        ConfirmationBody(OrText(data.name, "there"), OrText(data.subject, "N/A"), OrText(data.message, "N/A")))
    else if key == ContactNotification then
      Template(NotificationPrefix + OrText(data.name, "Unknown"),
        NotificationBody(OrText(data.name, "N/A"), OrText(data.to, "N/A"), OrText(data.subject, "N/A"),
                         OrText(data.message, "N/A"), ToJsString(data.to)))
    else Template(FallbackSubject, FallbackBody)
  }

  /** A caller can tell from the subject alone that its `type` was not recognised:
    * no known template has the fallback subject. */
  lemma FallbackRecognisable(kind: JsValue, data: TemplateData)
    ensures TemplateFor(kind, data).subject == FallbackSubject <==> ToJsString(kind) !in KnownKinds
  {
    var key := ToJsString(kind);
    if key == ContactNotification {
      assert |TemplateFor(kind, data).subject| > |FallbackSubject|;
    } else if key in KnownKinds {
      var s := TemplateFor(kind, data).subject;
      assert s in {NewsletterSubject, CommunitySubject, ConfirmationSubject};
      assert |s| > |FallbackSubject|;
    }
  }

  /** Known kinds get pairwise different subjects, so the subject says which template was used. */
  lemma SubjectsIdentifyTemplate(k1: JsValue, k2: JsValue, data1: TemplateData, data2: TemplateData)
    requires ToJsString(k1) in KnownKinds && ToJsString(k2) in KnownKinds
    requires TemplateFor(k1, data1).subject == TemplateFor(k2, data2).subject
    ensures ToJsString(k1) == ToJsString(k2)
  {
    // the notification subject starts "New", which no other subject does
    NotificationStartsNew(k1, data1);
    NotificationStartsNew(k2, data2);
  }

  lemma NotificationStartsNew(kind: JsValue, data: TemplateData)
    requires ToJsString(kind) in KnownKinds
    ensures var s := TemplateFor(kind, data).subject;
            |s| >= 3 && (s[..3] == "New" <==> ToJsString(kind) == ContactNotification)
  {
    if ToJsString(kind) == ContactNotification {
      var s := TemplateFor(kind, data).subject;
      assert s[..3] == NotificationPrefix[..3];
    } else {
      var s := TemplateFor(kind, data).subject;
      assert s == NewsletterSubject || s == CommunitySubject || s == ConfirmationSubject;
      assert s[0] == 'W';
    }
  }

  /** The mail provider's answer to one send. */
  datatype Transport = Responded(ok: bool) | Unreachable

  /** One send handed to the mail provider. */
  datatype Mail = Mail(to: string, subject: string, body: Body)

  /** `sendEmail(to, subject, html)`: the provider's `response.ok`, or false when the request throws. */
  method Send(to: string, t: Template, outcome: Transport) returns (ok: bool, mail: Mail)
    ensures ok <==> outcome == Responded(true)
    ensures mail == Mail(to, t.subject, t.body)
  {
    mail := Mail(to, t.subject, t.body);
    match outcome {
      case Responded(responseOk) => ok := responseOk;
      case Unreachable => ok := false;
    }
  }

  datatype Reply =
    | Preflight
    /** 200 with `{success, message}`. */
    | Sent(success: bool, message: string)
    /** 500 with `{success: false, error}`: the body was not JSON, or not an object to destructure. */
    | ServerError

  function DataOf(body: JsValue): TemplateData {
    TemplateData(Field(body, "name"), Field(body, "subject"), Field(body, "message"), Field(body, "to"))
  }

  /** `body` is the parsed JSON (None: `req.json()` rejects); `first` and
    * `second` are the provider's answers to the two possible sends. */
  method Serve(httpMethod: string, body: Option<JsValue>, first: Transport, second: Transport)
    returns (reply: Reply, mails: seq<Mail>)
    ensures httpMethod == "OPTIONS" ==> reply == Preflight && mails == []
    ensures httpMethod != "OPTIONS" && (body.None? || body.value in {Null, Undefined}) ==> reply == ServerError && mails == []
    ensures httpMethod != "OPTIONS" && body.Some? && body.value !in {Null, Undefined} ==>
              var t := TemplateFor(Field(body.value, "type"), DataOf(body.value));
              // a second send, to the site's own inbox, exactly for contact notifications
              && |mails| == (if Field(body.value, "type") == Str(ContactNotification) then 2 else 1)
              && mails[0] == Mail(ToJsString(Field(body.value, "to")), t.subject, t.body)
              && (|mails| == 2 ==> mails[1] == Mail(OwnAddress, t.subject, t.body))
              // the answer reports the first send only
              && reply == Sent(first == Responded(true), if first == Responded(true) then SentText else NotSentText)
    ensures reply.Sent? ==> (reply.success <==> first == Responded(true))
  {
    if httpMethod == "OPTIONS" {
      return Preflight, [];
    }
    if body.None? || body.value == Null || body.value == Undefined {
      return ServerError, [];
    }
    var request := body.value;
    var kind := Field(request, "type");
    var t := TemplateFor(kind, DataOf(request));
    var sent, mail := Send(ToJsString(Field(request, "to")), t, first);
    mails := [mail];
    if kind == Str(ContactNotification) {
      var copied, copy := Send(OwnAddress, t, second);
      mails := mails + [copy];
    }
    reply := Sent(sent, if sent then SentText else NotSentText);
  }
}
