/**
 * The older player form of `src/PlayerForm.tsx`. It tests the two expressions on
 * the values exactly as typed, with no trimming, so the email is required, and it
 * trims only what it submits.
 */
module LegacyPlayerForm {
  import opened Wrappers
  import opened Text
  import opened PlayerInput

  /** `validate`'s verdict on the values as typed. */
  function CheckFields(email: string, phone: string): FormErrors
  {
    FormErrors(!EmailPattern(email), !PhonePattern(phone))
  }

  /** What `handleSubmit` hands to `onSubmit`. */
  function Submission(email: string, phone: string): PlayerInfo
  {
    PlayerInfo(Trim(email), Trim(phone))
  }

  /** A blank email is always refused here. */
  lemma EmailRequired(phone: string)
    ensures CheckFields("", phone).email
  {
  }

  /**
   * An accepted email has no whitespace and splits at its one `@`, so the email the
   * form submits is the one typed.
   */
  lemma AcceptedEmailSubmittedAsTyped(email: string, phone: string)
    requires CheckFields(email, phone) == NoErrors
    ensures Submission(email, phone).email == email
    ensures exists a :: EmailSplit(email, a)
  {
    EmailPatternIsTrimmed(email);
    EmailPatternShape(email);
  }

  /** Seven spaces: a value the phone expression's `\s` lets through. */
  const SevenSpaces: string := "       "

  lemma SevenSpacesTrimToNothing()
    ensures PhonePattern(SevenSpaces)
    ensures Trim(SevenSpaces) == ""
  {
    assert forall i :: 0 <= i < |SevenSpaces| ==> SevenSpaces[i] == ' ';
    BlankTrimsToNothing(SevenSpaces);
  }

  /**
   * The form as written passes a phone of seven spaces and then submits an empty
   * phone number, although the phone is the field the player must give.
   */
  lemma BlankPhoneSubmitted()
    ensures CheckFields("a@b.c", SevenSpaces) == NoErrors
    ensures Submission("a@b.c", SevenSpaces).phone == ""
  {
    var s := "a@b.c";
    assert Plain(s[..1]) && Plain(s[2..3]) && Plain(s[4..]);
    assert s[1] == '@' && s[3] == '.';
    SevenSpacesTrimToNothing();
  }

  /** The inputs and the error display of one mounted form. */
  class Form {
    var email: string
    var phone: string
    var errors: FormErrors

    /** Both inputs start empty, with no error shown. */
    constructor()
      ensures email == "" && phone == "" && errors == NoErrors
    {
      email := "";
      phone := "";
      errors := NoErrors;
    }

    /** The email input's change handler. */
    method SetEmail(value: string)
      modifies this
      ensures email == value && phone == old(phone) && errors == old(errors)
    {
      email := value;
    }

    /** The phone input's change handler. */
    method SetPhone(value: string)
      modifies this
      ensures phone == value && email == old(email) && errors == old(errors)
    {
      phone := value;
    }

    /** `validate`: shows the errors of the current values and reports whether there are none. */
    method Validate() returns (ok: bool)
      modifies this
      ensures errors == CheckFields(email, phone)
      ensures ok <==> errors == NoErrors
      ensures email == old(email) && phone == old(phone)
    {
      errors := CheckFields(email, phone);
      ok := !errors.email && !errors.phone;
    }

    /** `handleSubmit`: validates, and on success yields the trimmed values for `onSubmit`. */
    method HandleSubmit() returns (sent: Option<PlayerInfo>)
      modifies this
      ensures errors == CheckFields(email, phone)
      ensures email == old(email) && phone == old(phone)
      ensures sent == if errors == NoErrors then Some(Submission(email, phone)) else None
    {
      var ok := Validate();
      if ok {
        sent := Some(PlayerInfo(Trim(email), Trim(phone)));
      } else {
        sent := None;
      }
    }
  }
}
