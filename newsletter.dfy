/**
 * The newsletter form: an email and a daily/weekly choice. Submitting inserts
 * the subscriber; a unique-key conflict is reported as "already subscribed";
 * after a successful insert the welcome email is requested, its result is not
 * looked at, and the form resets.
 *
 * The `newsletter_subscribers` table is keyed by email. The store's fault and
 * the email helper's outcome are inputs.
 */
module Newsletter {
  import opened Shared
  import opened Store

  const AlreadySubscribed: string := "You are already subscribed to our newsletter!"
  const Subscribed: string := "Successfully subscribed! Check your inbox for confirmation."
  const Generic: string := "Something went wrong. Please try again."

  const Frequencies: set<string> := {"daily", "weekly"}

  datatype Subscriber = Subscriber(frequency: string)

  class Form {
    var email: string
    var frequency: string
    var status: Status
    var message: string

    /** The frequency is one of the two the buttons offer. */
    predicate Valid()
      reads this
    {
      frequency in Frequencies
    }

    constructor()
      ensures Valid() && email == "" && frequency == "weekly" && status == Idle && message == ""
    {
      email := "";
      frequency := "weekly";
      status := Idle;
      message := "";
    }

    /** The "Daily" and "Weekly" buttons. */
    method ChooseFrequency(f: string)
      requires f in Frequencies
      modifies this
      ensures Valid() && frequency == f
      ensures email == old(email) && status == old(status) && message == old(message)
    {
      frequency := f;
    }

    method Begin()
      modifies this
      ensures status == Loading && message == ""
      ensures email == old(email) && frequency == old(frequency)
    {
      status := Loading;
      message := "";
    }

    /** `handleSubmit` with the store's and the email helper's answers. `welcomed`
      * is the address the welcome email was requested for. */
    method Submit(subscribers: map<string, Subscriber>, insertFault: Option<DbError>, send: SendOutcome)
      returns (subscribers': map<string, Subscriber>, welcomed: Option<string>)
      requires Valid()
      modifies this
      ensures Valid()
      ensures status == Success || status == Error
      ensures var r := InsertUnique(subscribers, old(email), Subscriber(old(frequency)), insertFault);
              && subscribers' == r.0
              // a conflict is reported apart from other errors, and no email is requested
              && (r.1.Some? && r.1.value.code == UniqueViolation ==>
                    message == AlreadySubscribed && status == Error && welcomed == None)
              && (r.1.Some? && r.1.value.code != UniqueViolation ==>
                    message == Generic && status == Error && welcomed == None)
              && (r.1.None? ==> welcomed == Some(old(email)))
      // whatever the helper resolves to, the subscription succeeds and the form resets
      ensures welcomed.Some? && send.Resolved? ==>
                message == Subscribed && status == Success && email == "" && frequency == "weekly"
      // only a rejection of the helper makes it an error, and the row stays
      ensures welcomed.Some? && send.Rejected? ==>
                message == Generic && status == Error && email == old(email) && frequency == old(frequency)
      ensures status == Error ==> email == old(email) && frequency == old(frequency)
    {
      Begin();
      var inserted := InsertUnique(subscribers, email, Subscriber(frequency), insertFault);
      subscribers', welcomed := inserted.0, None;
      if inserted.1.Some? {
        if inserted.1.value.code == UniqueViolation {
          message := AlreadySubscribed;
        } else {
          // rethrown to the catch
          message := Generic;
        }
        status := Error;
        return;
      }
      welcomed := Some(email);
      if send.Rejected? {
        message := Generic;
        status := Error;
        return;
      }
      message := Subscribed;
      status := Success;
      email := "";
      frequency := "weekly";
    }
  }

  /** An address already on the list gets the conflict message and no welcome email. */
  method SubscribeTwice(address: string, f: string) returns (first: Option<string>, second: Option<string>,
                                                             messageAfter: string, table: map<string, Subscriber>)
    requires f in Frequencies
    ensures first == Some(address) && second == None
    ensures messageAfter == AlreadySubscribed
    ensures table == map[address := Subscriber(f)]
  {
    var form := new Form();
    form.email := address;
    form.ChooseFrequency(f);
    table, first := form.Submit(map[], None, Resolved(Bool(true)));
    form.email := address;
    table, second := form.Submit(table, None, Resolved(Bool(true)));
    messageAfter := form.message;
  }
}
