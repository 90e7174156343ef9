/**
 * The contact form: the submit handler (script.js:196-208), `validateForm`
 * (script.js:225-250) and the two phases of `submitForm` (script.js:257-287).
 * Validation is pure: the error notification it raises is part of its
 * result, and the handler shows it.
 */
module Contact {
  import opened Wrappers
  import opened Text
  import opened Email
  import opened Notifications

  /** The named fields of the form, as `Object.fromEntries(new FormData(form))` gives them. */
  datatype FormData = FormData(name: string, email: string, subject: string, message: string)

  /** The fields `validateForm` checks. */
  datatype Field = Name | EmailAddress | Subject | Message

  /** The fields in the order `validateForm` checks them. */
  const CheckOrder: seq<Field> := [Name, EmailAddress, Subject, Message]

  /**
   * A field passes when its trimmed value is non-empty; the email must also
   * match the pattern, tested on the value as entered, not trimmed.
   */
  predicate Passes(data: FormData, f: Field)
    ensures Passes(data, f) <==> match f
      case Name => !IsBlank(data.name)
      case EmailAddress => IsValidEmail(data.email)
      case Subject => !IsBlank(data.subject)
      case Message => !IsBlank(data.message)
  {
    match f
    case Name => TrimEmptyIffBlank(data.name); Trim(data.name) != []
    case EmailAddress =>
      TrimEmptyIffBlank(data.email);
      Trim(data.email) != [] && IsValidEmail(data.email)
    case Subject => TrimEmptyIffBlank(data.subject); Trim(data.subject) != []
    case Message => TrimEmptyIffBlank(data.message); Trim(data.message) != []
  }

  /** The error text shown when a field fails. */
  function ErrorText(f: Field): (r: string)
    ensures |r| > 13 && r[..13] == "Please enter "
  {
    match f
    case Name => "Please enter your name"
    case EmailAddress => "Please enter a valid email address"
    case Subject => "Please enter a subject"
    case Message => "Please enter your message"
  }

  /** The field at position `k` of the check order fails and every field checked before it passes. */
  predicate FailsFirstAt(data: FormData, k: int)
  {
    0 <= k < |CheckOrder| && !Passes(data, CheckOrder[k]) &&
    forall j | 0 <= j < k :: Passes(data, CheckOrder[j])
  }

  /** What `validateForm` returns, with the notifications it shows on the way. */
  datatype Verdict = Verdict(valid: bool, notices: seq<Notice>)

  /**
   * `validateForm(data)`: valid exactly when every field passes, and then
   * silent; otherwise one error notification, naming the first failing field.
   */
  function ValidateForm(data: FormData): (v: Verdict)
    ensures v.valid <==> forall k | 0 <= k < |CheckOrder| :: Passes(data, CheckOrder[k])
    ensures v.valid ==> v.notices == []
    ensures !v.valid ==>
      exists k :: FailsFirstAt(data, k) && v.notices == [Notice(ErrorText(CheckOrder[k]), "error")]
  {
    if !Passes(data, Name) then
      assert FailsFirstAt(data, 0);
      Verdict(false, [Notice(ErrorText(Name), "error")])
    else if !Passes(data, EmailAddress) then
      assert FailsFirstAt(data, 1);
      Verdict(false, [Notice(ErrorText(EmailAddress), "error")])
    else if !Passes(data, Subject) then
      assert forall j | 0 <= j < 2 :: Passes(data, CheckOrder[j]) by {
        assert CheckOrder[..2] == [Name, EmailAddress];
      }
      assert FailsFirstAt(data, 2);
      Verdict(false, [Notice(ErrorText(Subject), "error")])
    else if !Passes(data, Message) then
      assert forall j | 0 <= j < 3 :: Passes(data, CheckOrder[j]) by {
        assert CheckOrder[..3] == [Name, EmailAddress, Subject];
      }
      assert FailsFirstAt(data, 3);
      Verdict(false, [Notice(ErrorText(Message), "error")])
    else
      Verdict(true, [])
  }

  /** At most one field is the first to fail, so the error shown is determined by the data. */
  lemma FirstFailureUnique(data: FormData, k: int, m: int)
    requires FailsFirstAt(data, k) && FailsFirstAt(data, m)
    ensures k == m
  {
  }

  /** A blank name is reported alone, whatever the email and the other fields hold. */
  lemma BlankNameReportedFirst(data: FormData)
    requires IsBlank(data.name)
    ensures ValidateForm(data) == Verdict(false, [Notice("Please enter your name", "error")])
  {
  }

  /** Once the name is given, a blank email is reported as an invalid address. */
  lemma BlankEmailFails(data: FormData)
    requires !IsBlank(data.name) && IsBlank(data.email)
    ensures ValidateForm(data) == Verdict(false, [Notice("Please enter a valid email address", "error")])
  {
  }

  /**
   * Once the name is given, an email value padded with whitespace at either
   * end is reported as an invalid address: the check tests the untrimmed value.
   */
  lemma PaddedEmailFails(data: FormData, pad: char)
    requires IsWhitespace(pad) && !IsBlank(data.name)
    ensures ValidateForm(data.(email := data.email + [pad])) ==
      Verdict(false, [Notice("Please enter a valid email address", "error")])
    ensures ValidateForm(data.(email := [pad] + data.email)) ==
      Verdict(false, [Notice("Please enter a valid email address", "error")])
  {
    PaddedEmailRejected(data.email, pad);
  }

  /** The text of the submit button while a submission is pending. */
  const SendingLabel := "Sending..."
  /** The classes that mark the submit button busy. */
  const BusyClasses: set<string> := {"opacity-75", "cursor-not-allowed"}
  /** The text of the notification shown when a submission completes. */
  const SuccessText := "Message sent successfully! I'll get back to you soon."

  /** What the page shows of the submit button. */
  datatype ButtonState = ButtonState(text: string, disabled: bool, classes: set<string>)

  /** The button once a submission has begun. */
  function Sending(b: ButtonState): (r: ButtonState)
    ensures r.text == SendingLabel && r.disabled && BusyClasses <= r.classes
    ensures r.classes - BusyClasses == b.classes - BusyClasses
  {
    ButtonState(SendingLabel, true, b.classes + BusyClasses)
  }

  /** The button once a submission has completed, its text put back to `original`. */
  function Restored(b: ButtonState, original: string): (r: ButtonState)
    ensures r.text == original && !r.disabled && r.classes !! BusyClasses
    ensures r.classes + BusyClasses == b.classes + BusyClasses
  {
    ButtonState(original, false, b.classes - BusyClasses)
  }

  /**
   * Beginning and completing a submission, with the text saved when it
   * began, gives back the button as it was, when it was enabled and not busy.
   */
  lemma SendingRoundTrip(b: ButtonState)
    requires !b.disabled && b.classes !! BusyClasses
    ensures Restored(Sending(b), b.text) == b
  {
  }

  /** The submit button of the form. */
  class SubmitButton {
    var text: string
    var disabled: bool
    var classes: set<string>

    function State(): ButtonState
      reads this
    {
      ButtonState(text, disabled, classes)
    }

    constructor (text: string, classes: set<string>)
      ensures State() == ButtonState(text, false, classes)
    {
      this.text := text;
      disabled := false;
      this.classes := classes;
    }

    /** The first phase of `submitForm`: save the text, then show the busy state. */
    method BeginSending() returns (original: string)
      modifies this
      ensures original == old(text)
      ensures State() == Sending(old(State()))
    {
      original := text;
      text := SendingLabel;
      disabled := true;
      classes := classes + BusyClasses;
    }

    /** The button half of the completion phase: put back the saved text and enable. */
    method FinishSending(original: string)
      modifies this
      ensures State() == Restored(old(State()), original)
    {
      text := original;
      disabled := false;
      classes := classes - BusyClasses;
    }
  }

  /** The form's current field values and the values `reset()` restores. */
  class Form {
    var data: FormData
    const defaults: FormData

    constructor (defaults: FormData)
      ensures data == defaults && this.defaults == defaults
    {
      this.defaults := defaults;
      data := defaults;
    }

    /** `form.reset()`. */
    method Reset()
      modifies this
      ensures data == defaults
    {
      data := defaults;
    }
  }

  /**
   * The submit handler: validate; on failure show the one error notification,
   * on success begin sending. The saved text is returned for the completion
   * phase.
   */
  method OnSubmit(form: Form, button: SubmitButton, center: NotificationCenter)
    returns (pending: Option<string>)
    requires center.Valid()
    modifies button, center
    ensures center.Valid()
    ensures ValidateForm(form.data).valid ==>
      pending == Some(old(button.text)) && button.State() == Sending(old(button.State())) &&
      center.attached == old(center.attached)
    ensures !ValidateForm(form.data).valid ==>
      pending == None && button.State() == old(button.State()) &&
      |center.attached| == 1 && fresh(center.attached[0]) &&
      [Notice(center.attached[0].message, "error")] == ValidateForm(form.data).notices &&
      center.attached[0].classes == InitialClasses("error")
  {
    var verdict := ValidateForm(form.data);
    if verdict.valid {
      var original := button.BeginSending();
      pending := Some(original);
    } else {
      var notice := verdict.notices[0];
      var banner := center.Show(notice.message, notice.kind);
      pending := None;
    }
  }

  /**
   * The completion phase of `submitForm`, run once the simulated latency has
   * passed: reset the form, restore the button, show the success notification.
   */
  method CompleteSubmission(form: Form, button: SubmitButton, center: NotificationCenter, original: string)
    returns (banner: Banner)
    requires center.Valid()
    modifies form, button, center
    ensures form.data == form.defaults
    ensures button.State() == Restored(old(button.State()), original)
    ensures center.Valid() && fresh(banner) && center.attached == [banner]
    ensures banner.message == SuccessText && banner.classes == InitialClasses("success")
  {
    form.Reset();
    button.FinishSending(original);
    banner := center.Show(SuccessText, "success");
  }

  /**
   * A valid submission, once completed, leaves the form at its defaults, the
   * button as it was before, and the success notification as the only one.
   */
  method SubmitAndComplete(form: Form, button: SubmitButton, center: NotificationCenter)
    returns (banner: Option<Banner>)
    requires center.Valid()
    requires ValidateForm(form.data).valid
    requires !button.disabled && button.classes !! BusyClasses
    modifies form, button, center
    ensures form.data == form.defaults
    ensures button.State() == old(button.State())
    ensures banner.Some? && center.attached == [banner.value] && banner.value.message == SuccessText
  {
    var pending := OnSubmit(form, button, center);
    var done := CompleteSubmission(form, button, center, pending.value);
    SendingRoundTrip(old(button.State()));
    banner := Some(done);
  }
}
