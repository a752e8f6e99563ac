/**
 * How the email requests the other parts make fare in the `send-email`
 * function's template table: the two welcome kinds the subscription forms
 * request have templates of their own, while the three kinds the payment
 * confirmation posts are not among the known kinds and all get the generic
 * fallback.
 */
module EmailFlows {
  import opened Shared
  import opened Store
  import SendEmail
  import Community
  import ConfirmPayment

  /** The kinds confirm-payment posts end in `_success`, `_request` or
    * `_confirmation` (the last one differing from `contact_confirmation`). */
  lemma {:induction false} ServiceKindUnknown(requestType: JsValue)
    ensures ToJsString(requestType) + "_request" !in SendEmail.KnownKinds
  {
    var k := ToJsString(requestType) + "_request";
    // every known kind ends in 'e' or 'n'
    assert k[|k| - 1] == 't';
  }

  lemma PaymentPostsGetFallback(row: StudentRequest, sessionId: string, data: SendEmail.TemplateData)
    ensures var fallback := SendEmail.Template(SendEmail.FallbackSubject, SendEmail.FallbackBody);
            && SendEmail.TemplateFor(Str(ConfirmPayment.PaymentSuccessPost(row, sessionId).kind), data) == fallback
            && SendEmail.TemplateFor(Str(ConfirmPayment.ServiceRequestPost(row).kind), data) == fallback
            && SendEmail.TemplateFor(Str(ConfirmPayment.PaymentConfirmationPost(row).kind), data) == fallback
  {
    ServiceKindUnknown(row.requestType);
    assert "payment_confirmation" != SendEmail.ContactConfirmation by {
      assert "payment_confirmation"[0] != SendEmail.ContactConfirmation[0];
    }
  }

  /** The community welcome call is rendered with the community template. */
  lemma CommunityWelcomeRecognised(email: string, data: SendEmail.TemplateData)
    ensures Community.WelcomeFor(email).kind in SendEmail.KnownKinds
    ensures SendEmail.TemplateFor(Str(Community.WelcomeFor(email).kind), data).subject == SendEmail.CommunitySubject
  {
  }
}
