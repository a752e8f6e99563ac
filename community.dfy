/**
 * The community sign-up form. Submitting inserts the member (weekly, active);
 * a unique-key conflict is reported as "already a member"; otherwise a
 * welcome email is requested, and when it fails the component reports it and
 * tries, best effort, to delete the row it just inserted.
 *
 * The `community_members` table is keyed by email. The store's faults and the
 * email helper's outcome are inputs.
 */
module Community {
  import opened Shared
  import opened Store

  const AlreadyMember: string := "You are already part of our community!"
  const Welcomed: string := "Welcome to the InnovBridge community! Check your inbox for a welcome message."
  const StillSubscribed: string :=
    "Welcome! You're in, but we couldn't send the welcome email. Don't worry, you're still subscribed!"
  const Generic: string := "Something went wrong. Please try again or contact support."
  /** The message the component throws when the helper resolves falsy. */
  const WelcomeFailed: string := "Failed to send welcome email"
  /** What the catch looks for before rolling back. */
  const RollbackMarker: string := "send welcome email"

  datatype Member = Member(frequency: string, active: bool)

  /** The call `sendEmail("community_welcome", email, {requestData: {name, frequency}})`. */
  datatype WelcomeCall = WelcomeCall(kind: string, to: string, name: string, frequency: string)

  function WelcomeFor(email: string): (call: WelcomeCall)
    ensures call.kind == "community_welcome" && call.to == email && call.frequency == "weekly"
    // the greeting name is the address up to its first `@`
    ensures '@' !in call.name && |call.name| <= |email| && email[..|call.name|] == call.name
    ensures |call.name| < |email| ==> email[|call.name|] == '@'
  {
    WelcomeCall("community_welcome", email, BeforeFirst(email, '@'), "weekly")
  }

  /** The message the catch shows for a thrown error. */
  function CatchMessage(thrown: string): (m: string)
    ensures m == StillSubscribed || m == Generic
    ensures m == StillSubscribed <==> Contains(thrown, WelcomeFailed)
  {
    if Contains(thrown, WelcomeFailed) then StillSubscribed else Generic
  }

  /** Every message that reports a missed welcome email also triggers the rollback. */
  lemma StillSubscribedRollsBack(thrown: string)
    requires CatchMessage(thrown) == StillSubscribed
    ensures Contains(thrown, RollbackMarker)
  {
    assert WelcomeFailed == "Failed to " + RollbackMarker;
    ContainsPart(thrown, "Failed to ", RollbackMarker);
  }

  class Form {
    var email: string
    var status: Status
    var message: string

    constructor()
      ensures email == "" && status == Idle && message == ""
    {
      email := "";
      status := Idle;
      message := "";
    }

    method Begin()
      modifies this
      ensures status == Loading && message == "" && email == old(email)
    {
      status := Loading;
      message := "";
    }

    /** The catch block: report, then roll back when the message names the welcome email. */
    method Recover(thrown: string, members: map<string, Member>, deleteFault: Option<DbError>)
      returns (members': map<string, Member>, rollback: bool)
      modifies this
      ensures message == CatchMessage(thrown) && status == Error && email == old(email)
      ensures rollback <==> Contains(thrown, RollbackMarker)
      ensures members' == if rollback then DeleteKey(members, email, deleteFault) else members
    {
      message := CatchMessage(thrown);
      status := Error;
      members', rollback := members, false;
      if Contains(thrown, RollbackMarker) {
        rollback := true;
        // a failed delete is only logged
        members' := DeleteKey(members, email, deleteFault);
      }
    }

    /** `handleSubmit` with the store's and the email helper's answers. */
    method Submit(members: map<string, Member>, insertFault: Option<DbError>, send: SendOutcome,
                  deleteFault: Option<DbError>)
      returns (members': map<string, Member>, welcome: Option<WelcomeCall>, rollback: bool)
      modifies this
      ensures status == Success || status == Error
      // a conflict: nothing sent, nothing rolled back
      ensures var r := InsertUnique(members, old(email), Member("weekly", true), insertFault);
              r.1.Some? && r.1.value.code == UniqueViolation ==>
                message == AlreadyMember && status == Error && welcome == None && !rollback
                && members' == members && email == old(email)
      // any other store error goes to the catch
      ensures var r := InsertUnique(members, old(email), Member("weekly", true), insertFault);
              r.1.Some? && r.1.value.code != UniqueViolation ==>
                message == CatchMessage(r.1.value.message) && status == Error && welcome == None
                && (rollback <==> Contains(r.1.value.message, RollbackMarker)) && email == old(email)
                // the row was never inserted; a matching message still deletes the address's existing row
                && members' == if rollback then DeleteKey(members, old(email), deleteFault) else members
      ensures welcome.Some? <==> insertFault.None? && old(email) !in members
      ensures welcome.Some? ==> welcome.value == WelcomeFor(old(email))
      // inserted and welcomed
      ensures welcome.Some? && send.Resolved? && Truthy(send.result) ==>
                message == Welcomed && status == Success && email == "" && !rollback
                && members' == members[old(email) := Member("weekly", true)]
      // inserted, but the welcome email failed: report it and undo the insert if the delete goes through
      ensures welcome.Some? && send.Resolved? && !Truthy(send.result) ==>
                message == StillSubscribed && status == Error && rollback && email == old(email)
                && members' == if deleteFault.None? then members else members[old(email) := Member("weekly", true)]
      ensures welcome.Some? && send.Rejected? ==>
                message == CatchMessage(send.message) && status == Error && email == old(email)
                && (rollback <==> Contains(send.message, RollbackMarker))
                // the row stays unless the message names the welcome email and the delete goes through
                && members' == var inserted := members[old(email) := Member("weekly", true)];
                               if rollback then DeleteKey(inserted, old(email), deleteFault) else inserted
      ensures status == Success <==> welcome.Some? && send.Resolved? && Truthy(send.result)
    {
      Begin();
      welcome, rollback := None, false;
      var inserted := InsertUnique(members, email, Member("weekly", true), insertFault);
      if inserted.1.Some? {
        if inserted.1.value.code == UniqueViolation {
          message := AlreadyMember;
          status := Error;
          return members, welcome, rollback;
        }
        members', rollback := Recover(inserted.1.value.message, members, deleteFault);
        return;
      }
      members' := inserted.0;
      welcome := Some(WelcomeFor(email));
      match send {
        case Rejected(thrown) =>
          members', rollback := Recover(thrown, members', deleteFault);
        case Resolved(result) =>
          if !Truthy(result) {
            assert Contains(WelcomeFailed, WelcomeFailed) by {
              ContainsInside("", WelcomeFailed, "");
              assert "" + WelcomeFailed + "" == WelcomeFailed;
            }
            StillSubscribedRollsBack(WelcomeFailed);
            members', rollback := Recover(WelcomeFailed, members', deleteFault);
            DeleteUndoesInsert(members, email, Member("weekly", true));
          } else {
            message := Welcomed;
            status := Success;
            email := "";
          }
      }
    }
  }
}
