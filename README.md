# InnovBridge: a verified model of the site's logic

InnovBridge is a marketing site for a student tech community. It is a React
front end plus three serverless functions on a hosted Postgres store. This
project models the parts that decide things:

- **Student hub wizard** (`student_hub.dfy`). A student picks a card: resume maker, project builder or PPT creator.
  - The card's form is validated. The email shape comes from a regular expression; each card has its own required fields.
  - The page asks the checkout function for a payment page. It parks the form in the browser's `pendingFormState` slot and leaves.
  - On return it restores the form and asks the confirmation function whether the session was paid.
  - It accepts "submit" only after a confirmed payment and a passing revalidation.
- **List sections** (`opportunities.dfy`, `tech_updates.dfy`). Each fetches rows once and filters them under a selector whose "All" entry shows everything.
  - Opportunity types compare ignoring case; update categories compare exactly.
  - Opportunity types get a colour, with gray as the default.
  - A placeholder shows when nothing matches.
- **Sign-up and contact forms** (`community.dfy`, `newsletter.dfy`, `contact.dfy`). Each moves idle → loading → success or error, depending on the store's answer and the email helper's answer.
  - Community tries a compensating delete when the welcome email fails.
  - Newsletter ignores the email result.
  - Contact inserts the form as is, with no de-duplication.
- **`create-checkout-session`** (`checkout_session.dfy`). Checks the posted request, stores it unpaid, and creates a $2.00 card session. The session's return URL carries the row id; the handler records the session id on the row.
- **`confirm-payment`** (`confirm_payment.dfy`). Checks the query, retrieves the session and looks the row up. If `payment_status` is `"paid"` it marks the row paid. It then posts best-effort emails and a history entry.
- **`send-email`** (`send_email.dfy`). Picks one of four templates by `type`, with a fallback. Sends once, and a second time to the site's own inbox for contact notifications. Reports the first send only.
- **How the parts fit together** (`email_flows.dfy`):
  - which of the email kinds the other parts request have a template of their own;
  - how the checkout return URL carries both identifiers back to the page (`CheckoutSession.LandingUrlCarriesIds`, `StudentHub.PptCycle`).

Shared pieces:

- `shared.dfy`: JavaScript values with truthiness and `String()` coercion, `\s`, ASCII case mapping, `includes`, `split(c)[0]`, and an order-keeping filter.
- `store.dfy`: unique-key inserts, updates by id, deletes and appends.
- `url.dfy`: placeholder substitution, `location.search` and `URLSearchParams.get`.

The outside world comes in as parameters:

- the rows the store returns and whether each store call fails;
- the payment provider's session;
- each `fetch` answer;
- the mail provider's response.

Store tables are values that a handler takes and returns. The browser components are
classes whose methods update their fields. The browser's storage slot, query
string and navigation are a `Browser` object.

## Model

| member | source | states |
|---|---|---|
| StudentHub.IsEmailValid | src/components/StudentHub.tsx:55-57 | the email check as a decidable predicate: no white space, exactly one `@`, a non-empty local part, and a domain with a `.` that is neither its first nor its last character |
| StudentHub.EmailValidMatchesPattern | src/components/StudentHub.tsx:55-57 | that predicate accepts exactly the strings the regular expression `^[^\s@]+@[^\s@]+\.[^\s@]+$` matches, in both directions |
| StudentHub.EmailValidImpliesPattern | src/components/StudentHub.tsx:55-57 | every string the predicate accepts splits into three `[^\s@]+` runs around an `@` and a `.` |
| StudentHub.PatternImpliesEmailValid | src/components/StudentHub.tsx:55-57 | every such split is accepted by the predicate |
| StudentHub.Required | src/components/StudentHub.tsx:68-79 | the fields each card requires besides the email; the email is never among them |
| StudentHub.EmailError | src/components/StudentHub.tsx:62-66 | "Email is required" exactly for a missing or non-string email, "Please enter a valid email" exactly for a non-empty string of the wrong shape, no error otherwise; never both |
| StudentHub.FormErrors | src/components/StudentHub.tsx:59-83 | the error map has no key besides the email and the card's required fields |
| StudentHub.FormErrorsChecks | src/components/StudentHub.tsx:59-83 | each required field is in the map exactly when its value is falsy, with its own message; the email is in it exactly when the email check fails; the map is empty exactly when every check passes |
| StudentHub.ModalTitle | src/components/StudentHub.tsx:98-103 | the title of each of the three cards |
| StudentHub.TitledIffOwnFields | src/components/StudentHub.tsx:98-103 | a card has a title exactly when it has required fields of its own |
| StudentHub.ValidPayloadAccepted | src/components/StudentHub.tsx:157-172 | a form that passes the client check produces a checkout body that passes the checkout function's required-field check and carries the entered email unchanged |
| StudentHub.Hub.constructor | src/components/StudentHub.tsx:12-54 | the wizard starts closed: no card, empty form, not processing, not paid |
| StudentHub.Hub.OpenCard | src/components/StudentHub.tsx:85-89 | sets the card, empties the form, clears the confirmed payment, leaves the processing flag |
| StudentHub.Hub.CloseModal | src/components/StudentHub.tsx:91-96 | ends closed: no card, empty form, not processing, not paid |
| StudentHub.Hub.EditField | src/components/StudentHub.tsx:350-485 | an input's change replaces that one key of the form and nothing else |
| StudentHub.Hub.ValidateForm | src/components/StudentHub.tsx:59-83 | shows exactly `FormErrors` of the current card and form, and answers true exactly when it is empty; nothing else changes |
| StudentHub.Hub.Mount | src/components/StudentHub.tsx:106-155 | a parked slot restores form and card; the confirmation call is made exactly when the query has a non-empty `session_id`, with the `request_id` or ""; the payment counts as confirmed, and the query is cleared, only for an answer with truthy `success` and `paid`; otherwise it stays as it was |
| StudentHub.Hub.StartPayment | src/components/StudentHub.tsx:157-207 | an invalid form sends nothing and parks nothing; a valid one sends `{request_type, email: String(email), data}`; only an answer with truthy `success` and `url` parks form and card and navigates to the url; processing is off afterwards on every path that sends |
| StudentHub.Hub.Submit | src/components/StudentHub.tsx:209-226 | refused before any validation when the payment is not confirmed; refused when the form no longer validates; otherwise the slot is removed and the wizard ends closed |
| StudentHub.PptFormValid | src/components/StudentHub.tsx:59-83 | a ppt form with topic, brief and a valid email has no errors |
| StudentHub.ResumeFormMissesRole | src/components/StudentHub.tsx:69-71 | a resume form with an empty role has exactly the role error |
| StudentHub.ReturnCarriesIds | src/components/StudentHub.tsx:116-118 | on the page the payment provider returns to, the page's query lookups give back the session and request ids |
| StudentHub.ResumeWithoutRole | src/components/StudentHub.tsx:157-161 | a resume with an empty role is refused before any call: nothing sent, nothing parked, the role's message shown |
| StudentHub.FailedCheckoutKeepsForm | src/components/StudentHub.tsx:185-206 | a checkout answer without success leaves the wizard open with the form as entered, parks nothing and goes nowhere |
| StudentHub.PptCycle | src/components/StudentHub.tsx:106-226 | the whole cycle: the exact body posted, the form parked, the confirmation call with both ids after the return, submission accepted, slot cleared, wizard closed |
| Opportunities.FilterOpportunities | src/components/Opportunities.tsx:41-46 | "All" shows the fetched list; otherwise the result is no longer than the list, holds only rows whose type matches ignoring case, and holds every such row |
| Opportunities.FilterOpportunitiesKeepsOrder | src/components/Opportunities.tsx:44-46 | the shown rows are a subsequence of the fetched list in its order, each shown row keeping its multiplicity and every other row dropped |
| Opportunities.FilterOpportunitiesIdempotent | src/components/Opportunities.tsx:44-46 | filtering the shown rows again changes nothing |
| Opportunities.FilterOpportunitiesIgnoresCase | src/components/Opportunities.tsx:44-46 | selections that differ only by letter case show the same rows |
| Opportunities.EmptyState | src/components/Opportunities.tsx:166 | the placeholder shows exactly when nothing is loading and no fetched row matches the selection |
| Opportunities.TypeColor | src/components/Opportunities.tsx:48-56 | the fixed colour of the lower-cased type when it is one of the four, gray otherwise |
| Opportunities.OfferedTypesColoured | src/components/Opportunities.tsx:17 | each type the selector offers, other than "All", has a colour of its own, never gray, and no two share one |
| Opportunities.Section.constructor | src/components/Opportunities.tsx:12-16 | starts loading, with no rows and "All" selected |
| Opportunities.Section.Fetch | src/components/Opportunities.tsx:23-39 | rows replace the list, a null result gives an empty list, an error keeps the list; loading ends on every path |
| Opportunities.Section.Select | src/components/Opportunities.tsx:41-43 | changes only the selection; under "All" the visible rows are the fetched ones |
| TechUpdates.FilterUpdates | src/components/TechUpdates.tsx:41-44 | "All" shows the fetched list; otherwise the result holds exactly the updates whose category equals the selection, and is no longer than the list |
| TechUpdates.FilterUpdatesKeepsOrder | src/components/TechUpdates.tsx:44 | the shown updates are a subsequence in fetched order, each with its multiplicity |
| TechUpdates.FilterUpdatesIdempotent | src/components/TechUpdates.tsx:44 | filtering twice equals filtering once |
| TechUpdates.FilterUpdatesCaseSensitive | src/components/TechUpdates.tsx:44 | the match is exact: "ai" does not show an update filed under "AI", while "AI" does |
| TechUpdates.OfferedCategoriesDisjoint | src/components/TechUpdates.tsx:10-17 | each category the selector offers, other than "All", shows only updates filed under it, so no update shows under two offered categories |
| TechUpdates.EmptyState | src/components/TechUpdates.tsx:145 | the placeholder shows exactly when nothing is loading and no fetched update matches |
| TechUpdates.Section.constructor | src/components/TechUpdates.tsx:6-8 | starts loading, with no updates and "All" selected |
| TechUpdates.Section.Fetch | src/components/TechUpdates.tsx:23-39 | rows replace the list, a null result gives an empty list, an error keeps the list; loading ends on every path |
| TechUpdates.Section.Select | src/components/TechUpdates.tsx:41-44 | changes only the selection; under "All" the visible updates are the fetched ones |
| Community.WelcomeFor | src/components/Community.tsx:92-97 | the welcome request is `community_welcome` to the entered address, frequency weekly, greeting the longest `@`-free prefix of the address |
| Community.CatchMessage | src/components/Community.tsx:114-128 | the catch shows the "still subscribed" message exactly when the error text includes "Failed to send welcome email", the generic one otherwise |
| Community.StillSubscribedRollsBack | src/components/Community.tsx:114-137 | whenever the catch reports a missed welcome email it also attempts the rollback |
| Community.Form.constructor | src/components/Community.tsx:21-25 | empty email, idle, no message |
| Community.Form.Begin | src/components/Community.tsx:67-68 | loading, message cleared, email kept |
| Community.Form.Recover | src/components/Community.tsx:110-137 | the catch: message and error status; the delete is attempted exactly when the text includes "send welcome email", and it removes the row only if it succeeds |
| Community.Form.Submit | src/components/Community.tsx:65-139 | a conflict gives "already part" with no email, no rollback and the table unchanged; another store error goes to the catch, which deletes the address's row exactly when the message includes "send welcome email" and the delete succeeds, and otherwise leaves the table; the welcome is requested exactly after a successful insert; a truthy result gives success, clears the email and keeps the row; a falsy result reports the miss and rolls the row back unless the delete fails; a rejected send keeps the inserted row unless its message includes "send welcome email" and the delete succeeds; success exactly in the truthy case |
| Store.DeleteUndoesInsert | src/components/Community.tsx:131-136 | the compensating delete of a row just inserted restores the table |
| Store.InsertUnique | src/components/Community.tsx:72-88 | an insert is rejected with 23505 exactly when the key is taken, and otherwise adds that one row; an outside fault leaves the table as it was |
| Newsletter.Form.constructor | src/components/Newsletter.tsx:8-13 | empty email, weekly, idle |
| Newsletter.Form.ChooseFrequency | src/components/Newsletter.tsx:106-124 | the buttons set the frequency to daily or weekly; it is never anything else |
| Newsletter.Form.Begin | src/components/Newsletter.tsx:17-18 | loading and message cleared |
| Newsletter.Form.Submit | src/components/Newsletter.tsx:15-49 | a conflict gives "already subscribed" and no email; another error gives the generic message; a successful insert requests the welcome; the result is not checked, so any resolution gives success with email and frequency reset; only a rejection makes it an error, with the row kept |
| Newsletter.SubscribeTwice | src/components/Newsletter.tsx:21-32 | subscribing an address twice welcomes it once; the second time shows "already subscribed" and the table holds one row |
| Contact.WithField | src/components/Contact.tsx:74-78 | the named field takes the new value and the other three are unchanged |
| Contact.WithFieldLastWins | src/components/Contact.tsx:74-78 | a second change of a field overrides the first; writing back a field's own value changes nothing |
| Contact.Form.constructor | src/components/Contact.tsx:16-25 | four empty fields, idle |
| Contact.Form.Change | src/components/Contact.tsx:74-78 | only the named field changes |
| Contact.Form.Begin | src/components/Contact.tsx:50-51 | loading and message cleared before the insert |
| Contact.Form.Submit | src/components/Contact.tsx:48-72 | the current form is appended as one row; success resets all four fields; failure keeps the form and the table |
| Contact.SubmitTwice | src/components/Contact.tsx:54-56 | two identical submissions both succeed and leave two identical rows |
| CheckoutSession.ProductName | supabase/functions/create-checkout-session/index.ts:73 | the first character upper-cased, the rest as given, then " Service" |
| CheckoutSession.SessionFor | supabase/functions/create-checkout-session/index.ts:66-84 | one card payment of 200 cents in usd, quantity 1, named by the product name; success URL carries the placeholder and the row id; cancel URL is the site |
| CheckoutSession.SuccessUrlSubstitution | supabase/functions/create-checkout-session/index.ts:82 | the provider's substitution of the placeholder gives the landing URL with the real session id |
| CheckoutSession.LandingSearch | supabase/functions/create-checkout-session/index.ts:82 | the landing URL's query is `session_id=…&request_id=…` |
| CheckoutSession.LandingUrlCarriesIds | supabase/functions/create-checkout-session/index.ts:82 | reading `session_id` and `request_id` from the landing URL gives back both ids |
| CheckoutSession.Serve | supabase/functions/create-checkout-session/index.ts:24-113 | OPTIONS is a preflight; unparsable body 500; a falsy field 400 with nothing stored; a failed insert 500 with no session; the provisional row is stored unpaid and no other row changes; success answers 200 with the session url; a failed session-id update does not change that answer; the handler never marks anything paid |
| ConfirmPayment.Param | supabase/functions/confirm-payment/index.ts:28-32 | a parameter counts only when present and non-empty |
| ConfirmPayment.Admit | supabase/functions/confirm-payment/index.ts:23-75 | missing parameters give 400; a failed retrieve or lookup gives 500 even for an unpaid session; an unpaid session gives 200 not paid; only "paid" passes |
| ConfirmPayment.Settle | supabase/functions/confirm-payment/index.ts:77-184 | a failed update gives 500 and writes nothing; otherwise exactly the row is marked paid, the history gains one entry unless its insert fails, the emails go to the row's address, and the answer is 200 success and paid whatever the emails and history do |
| ConfirmPayment.Serve | supabase/functions/confirm-payment/index.ts:22-199 | the handler as written: OPTIONS is a preflight; missing parameters give 400; a failed retrieve or lookup gives 500 even for an unpaid session; an unpaid session gives 200 with paid false; a failed update gives 500 and writes nothing; confirmed exactly when admitted and the update succeeds; only the named row changes, and only its paid flag |
| ConfirmPayment.ServeTied | supabase/functions/confirm-payment/index.ts:46-86 | the corrected handler: the same 400/500/not-paid replies; a paid session whose id differs from the row's stored session id gives 200 with paid false and changes nothing; confirmed exactly when, in addition, the ids agree and the update succeeds |
| ConfirmPayment.ForeignSessionAccepted | supabase/functions/confirm-payment/index.ts:46-86 | as written, a paid session created for another checkout marks a row paid whose own session is different |
| ConfirmPayment.ForeignSessionRefused | supabase/functions/confirm-payment/index.ts:46-86 | with the check, the same call is answered "not confirmed" and nothing changes |
| ConfirmPayment.ConfirmTwice | supabase/functions/confirm-payment/index.ts:77-139 | a second confirmation leaves the table as the first did, but adds a second history entry and sends the payment email again |
| SendEmail.TemplateFor | supabase/functions/send-email/index.ts:22-195 | each of the four known kinds gets its own subject and body, with "there", "N/A" and "Unknown" for missing values; any other kind gets the fallback |
| SendEmail.FallbackRecognisable | supabase/functions/send-email/index.ts:194 | the subject is "InnovBridge" exactly when the kind is not a known one |
| SendEmail.SubjectsIdentifyTemplate | supabase/functions/send-email/index.ts:25-160 | known kinds have pairwise different subjects |
| SendEmail.NotificationStartsNew | supabase/functions/send-email/index.ts:160 | among the known kinds, exactly the contact notification's subject starts "New" |
| SendEmail.Send | supabase/functions/send-email/index.ts:197-234 | true exactly when the provider responded ok; false when it did not or the request threw |
| SendEmail.Serve | supabase/functions/send-email/index.ts:236-266 | OPTIONS is a preflight; an unreadable body is a 500; a second send to the site's own inbox happens exactly for `contact_notification`; the reply's success is the first send's result only |
| EmailFlows.ServiceKindUnknown | supabase/functions/confirm-payment/index.ts:118-122 | no `<kind>_request` type is a kind the email function knows |
| EmailFlows.PaymentPostsGetFallback | supabase/functions/confirm-payment/index.ts:89-172 | all three emails the confirmation posts are rendered with the fallback template |
| EmailFlows.CommunityWelcomeRecognised | src/components/Community.tsx:92-97 | the community welcome kind is known and gets the community subject |

## Left out

- Rendering, styling, icons, toasts, console logging and the static sections (hero, about, footer, founders' message, app shell) are not modelled.
- The services section is not part of this model. It only looks icons up in an icon library.
- `src/lib/supabase.ts` and `src/config/index.ts` are not part of this model. They construct clients and declare types; the email helper the forms import is not defined there. So the helper's settlement is an input (`SendOutcome`).
- Each handler is one atomic step. The model does not capture async interleaving, React's batched state updates, or stale state in closures between renders.
- Store row order, `order`/`limit` on selects, generated timestamps, and the columns the handlers never read are not modelled.
- Percent-encoding and `+` decoding in query strings are not modelled. The model assumes the identifiers in the return URL are URL-safe (no `&`, `#`, `=`, `{`).
- JSON numbers are integers: no floats, NaN or arrays. `(amount_total/100).toFixed(2)` and the amount line of the payment email are not modelled.
- Object keys inherited from the prototype (`toString`, `constructor` as a template key) are not modelled. A key is known exactly when it is one of the four templates.
- HTML bodies are kept as their interpolated values, not their markup. The unused MIME body, the hard-coded credentials and the environment lookups (site URL, keys) are not modelled. The site URL is a parameter.
- `toLowerCase` and `toUpperCase` are modelled on ASCII letters only; other letters are left unchanged. `\s` is the full ECMAScript white-space class.
- ConfirmPayment.ConfirmTwice: states that the payment email goes out again identically and that the table is unchanged. The whole list of posts repeating is not proved.
- The form is parked in the storage slot only after the checkout answer carries both `success` and `url`, not when payment starts; `StudentHub.Hub.StartPayment` states exactly that.
- `processingPay` stays as it was when validation fails, because the source returns before setting it. It is off after every path that sends.
- The page's `fetch` of the confirmation function is modelled by its parsed answer, not by a call to `ConfirmPayment.Serve`. The two are tied through the shared URL lemmas.

## Findings

| source | as written | input that shows it | evidently intended | confidence | as-written member | corrected member |
|---|---|---|---|---|---|---|
| supabase/functions/confirm-payment/index.ts:46-86 | the handler retrieves the session named in the query and marks the row named in the query paid if that session is paid; it never compares the session with the `stripe_session_id` stored on the row | row `r1` whose checkout created session `cs_A`, and the URL `https://innovbridge.tech?session_id=cs_B&request_id=r1` where `cs_B` is any other paid session | a row is marked paid only by the session created for it (`stripe_session_id` equal to `session_id`) | not executed | ConfirmPayment.ForeignSessionAccepted | ConfirmPayment.ForeignSessionRefused |
