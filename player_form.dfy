/**
 * The player form of `src/features/player/PlayerForm.tsx`: it holds what was typed
 * into the two inputs, checks the trimmed values on submit, shows an error per
 * failing field and hands the trimmed values on when both pass. The email may be
 * left blank; the phone is required.
 */
module PlayerForm {
  import opened Wrappers
  import opened Text
  import opened PlayerInput

  /** `validate`'s verdict on the typed values. */
  function CheckFields(email: string, phone: string): FormErrors
  {
    var e := Trim(email);
    var p := Trim(phone);
    FormErrors(e != "" && !EmailPattern(e), p == "" || !PhonePattern(p))
  }

  /** What `handleSubmit` hands to `onSubmit`. */
  function Submission(email: string, phone: string): PlayerInfo
  {
    PlayerInfo(Trim(email), Trim(phone))
  }

  /**
   * The form passes exactly when the trimmed email is blank or splits at a single
   * `@` into a local part and a dotted domain, and the trimmed phone matches the
   * phone expression (the separate blank test adds nothing to it).
   */
  lemma AcceptedFields(email: string, phone: string)
    ensures CheckFields(email, phone) == NoErrors <==>
      (Trim(email) == "" || exists a :: EmailSplit(Trim(email), a)) && PhonePattern(Trim(phone))
  {
    EmailPatternShape(Trim(email));
    if PhonePattern(Trim(phone)) {
      PhonePatternShape(Trim(phone));
    }
  }

  /** A phone made only of whitespace is refused, whatever the email. */
  lemma BlankPhoneRefused(email: string, phone: string)
    requires forall k :: 0 <= k < |phone| ==> IsSpace(phone[k])
    ensures CheckFields(email, phone).phone
  {
    BlankTrimsToNothing(phone);
  }

  /**
   * What the form submits is already trimmed, has a phone of 7 to 16 characters
   * that begins and ends with a non-whitespace character, and an email that is
   * blank or holds exactly one `@`.
   */
  lemma SubmissionIsClean(email: string, phone: string)
    requires CheckFields(email, phone) == NoErrors
    ensures Trim(Submission(email, phone).email) == Submission(email, phone).email
    ensures Trim(Submission(email, phone).phone) == Submission(email, phone).phone
    ensures 7 <= |Submission(email, phone).phone| <= 16
    ensures !IsSpace(Submission(email, phone).phone[0])
    ensures !IsSpace(Submission(email, phone).phone[|Submission(email, phone).phone| - 1])
    ensures Submission(email, phone).email == "" ||
      exists a :: 0 <= a < |Submission(email, phone).email| && Submission(email, phone).email[a] == '@' &&
        forall k :: 0 <= k < |Submission(email, phone).email| && k != a ==> Submission(email, phone).email[k] != '@'
  {
    var info := Submission(email, phone);
    TrimIdempotent(email);
    TrimIdempotent(phone);
    TrimShape(phone);
    PhonePatternShape(info.phone);
    if info.email != "" {
      OneAt(info.email);
    }
  }

  /** A matching email holds exactly one `@`. */
  lemma OneAt(e: string)
    requires EmailPattern(e)
    ensures exists a :: 0 <= a < |e| && e[a] == '@' && forall k :: 0 <= k < |e| && k != a ==> e[k] != '@'
  {
    EmailPatternShape(e);
    var a :| EmailSplit(e, a);
    assert e[a] == '@';
  }

  /** The inputs and the error display of one mounted form. */
  class Form {
    /** The `submitDisabled` prop of the latest render. */
    var submitDisabled: bool
    var email: string
    var phone: string
    var errors: FormErrors

    /** Both inputs start empty, with no error shown; the button follows the first render's prop. */
    constructor(submitDisabled: bool)
      ensures this.submitDisabled == submitDisabled
      ensures email == "" && phone == "" && errors == NoErrors
    {
      this.submitDisabled := submitDisabled;
      email := "";
      phone := "";
      errors := NoErrors;
    }

    /** The email input's change handler. */
    method SetEmail(value: string)
      modifies this
      ensures email == value && phone == old(phone) && errors == old(errors)
      ensures submitDisabled == old(submitDisabled)
    {
      email := value;
    }

    /** The phone input's change handler. */
    method SetPhone(value: string)
      modifies this
      ensures phone == value && email == old(email) && errors == old(errors)
      ensures submitDisabled == old(submitDisabled)
    {
      phone := value;
    }

    /** `validate`: shows the errors of the current values and reports whether there are none. */
    method Validate() returns (ok: bool)
      modifies this
      ensures errors == CheckFields(email, phone)
      ensures ok <==> errors == NoErrors
      ensures email == old(email) && phone == old(phone)
      ensures submitDisabled == old(submitDisabled)
    {
      ghost var before := CheckFields(email, phone);
      errors := CheckFields(email, phone);
      ok := errors == NoErrors;
      assert email == old(email) && phone == old(phone);
      assert errors == before;
    }

    /** `handleSubmit`: validates, and on success yields the trimmed values for `onSubmit`. */
    method HandleSubmit() returns (sent: Option<PlayerInfo>)
      modifies this
      ensures errors == CheckFields(email, phone)
      ensures email == old(email) && phone == old(phone) && submitDisabled == old(submitDisabled)
      ensures sent == if errors == NoErrors then Some(Submission(email, phone)) else None
    {
      var ok := Validate();
      if ok {
        sent := Some(PlayerInfo(Trim(email), Trim(phone)));
      } else {
        sent := None;
      }
    }

    /**
     * A re-render of the mounted form with a new `submitDisabled` prop: the typed
     * values and the errors on show are kept, only the button changes.
     */
    method SetSubmitDisabled(disabled: bool)
      modifies this
      ensures submitDisabled == disabled
      ensures email == old(email) && phone == old(phone) && errors == old(errors)
    {
      submitDisabled := disabled;
    }

    /**
     * Pressing the submit button (or Enter in a field): a disabled button delivers no
     * submit event, so nothing happens; otherwise `handleSubmit` runs.
     */
    method Press() returns (sent: Option<PlayerInfo>)
      modifies this
      ensures submitDisabled ==> sent == None && errors == old(errors)
      ensures !submitDisabled ==> errors == CheckFields(email, phone)
      ensures !submitDisabled ==> sent == if errors == NoErrors then Some(Submission(email, phone)) else None
      ensures email == old(email) && phone == old(phone) && submitDisabled == old(submitDisabled)
    {
      if submitDisabled {
        sent := None;
      } else {
        sent := HandleSubmit();
      }
    }
  }
}
