/**
 * The contact page's form: the validator, the per-field error record, the
 * touched set, and the change, blur and submit handlers.
 */
module Contact {
  import opened Wrappers
  import opened Text
  import Notifications

  // ---------------------------------------------------------------------
  // Form data

  datatype Field = Name | Email | Subject | Message

  const AllFields: set<Field> := {Name, Email, Subject, Message}

  datatype FormData = FormData(name: string, email: string, subject: string, message: string)

  const EmptyForm: FormData := FormData("", "", "", "")

  function Get(d: FormData, f: Field): string {
    match f
    case Name => d.name
    case Email => d.email
    case Subject => d.subject
    case Message => d.message
  }

  /** The form data with field `f` replaced by `v`. */
  function Set(d: FormData, f: Field, v: string): (e: FormData)
    ensures Get(e, f) == v
    ensures forall g :: g != f ==> Get(e, g) == Get(d, g)
  {
    match f
    case Name => d.(name := v)
    case Email => d.(email := v)
    case Subject => d.(subject := v)
    case Message => d.(message := v)
  }

  /** Forms that agree on every field are equal. */
  lemma FormExt(d: FormData, e: FormData)
    requires forall f :: Get(d, f) == Get(e, f)
    ensures d == e
  {
    assert Get(d, Name) == Get(e, Name) && Get(d, Email) == Get(e, Email);
    assert Get(d, Subject) == Get(e, Subject) && Get(d, Message) == Get(e, Message);
  }

  /** Writing back a field's own value changes nothing, and a later write to the same field wins. */
  lemma SetGetSet(d: FormData, f: Field, v: string, w: string)
    ensures Set(d, f, Get(d, f)) == d
    ensures Set(Set(d, f, v), f, w) == Set(d, f, w)
  {
    FormExt(Set(d, f, Get(d, f)), d);
    FormExt(Set(Set(d, f, v), f, w), Set(d, f, w));
  }

  // ---------------------------------------------------------------------
  // The e-mail pattern `^[^\s@]+@[^\s@]+\.[^\s@]+$`

  /** One character of the class `[^\s@]`. */
  predicate SegmentChar(c: char) {
    !IsWhitespace(c) && c != '@'
  }

  /** `[^\s@]+` matching all of `x`. */
  predicate Segment(x: string) {
    |x| > 0 && forall i :: 0 <= i < |x| ==> SegmentChar(x[i])
  }

  /**
   * The pattern matches `s`: `s` splits as local part, `@`, domain, `.`,
   * suffix, each part one or more characters of `[^\s@]`.
   */
  predicate RegexMatches(s: string)
    ensures RegexMatches(s) ==> 5 <= |s| && s[0] != '@' && s[|s| - 1] != '@'
  {
    exists a, k :: 0 < a && a + 1 < k < |s| - 1 && RegexSplit(s, a, k)
  }

  /** The split of `s` at the `@` at index `a` and the `.` at index `k`. */
  predicate RegexSplit(s: string, a: int, k: int)
    requires 0 < a && a + 1 < k < |s| - 1
  {
    s[a] == '@' && s[k] == '.' && Segment(s[..a]) && Segment(s[a + 1..k]) && Segment(s[k + 1..])
  }

  predicate NoWhitespace(s: string) {
    forall i :: 0 <= i < |s| ==> !IsWhitespace(s[i])
  }

  /**
   * The shape the pattern accepts, stated directly: no whitespace, exactly
   * one `@` and not at the start, and a `.` after the `@` with at least one
   * character between them and at least one after it.
   */
  predicate EmailShaped(s: string) {
    && NoWhitespace(s)
    && exists a :: 0 < a < |s| && s[a] == '@' && OnlyAt(s, a) && DotAfter(s, a)
  }

  /** The only `@` of `s` is at index `a`. */
  predicate OnlyAt(s: string, a: int) {
    forall i :: 0 <= i < |s| && s[i] == '@' ==> i == a
  }

  /** A `.` lies strictly inside the part of `s` after index `a + 1`. */
  predicate DotAfter(s: string, a: int) {
    exists k :: 0 <= a + 1 < k < |s| - 1 && s[k] == '.'
  }

  /** The pattern accepts exactly the e-mail-shaped strings. */
  lemma RegexMatchesIff(s: string)
    ensures RegexMatches(s) <==> EmailShaped(s)
  {
    if RegexMatches(s) {
      var a, k :| 0 < a && a + 1 < k < |s| - 1 && RegexSplit(s, a, k);
      RegexSplitShaped(s, a, k);
    }
    if EmailShaped(s) {
      var a :| 0 < a < |s| && s[a] == '@' && OnlyAt(s, a) && DotAfter(s, a);
      var k :| a + 1 < k < |s| - 1 && s[k] == '.';
      ShapedRegexSplit(s, a, k);
    }
  }

  lemma RegexSplitShaped(s: string, a: int, k: int)
    requires 0 < a && a + 1 < k < |s| - 1 && RegexSplit(s, a, k)
    ensures EmailShaped(s)
  {
    var x, y, z := s[..a], s[a + 1..k], s[k + 1..];
    forall i | 0 <= i < |s|
      ensures !IsWhitespace(s[i]) && (s[i] == '@' ==> i == a)
    {
      if i < a {
        assert s[i] == x[i];
      } else if a < i < k {
        assert s[i] == y[i - a - 1];
      } else if k < i {
        assert s[i] == z[i - k - 1];
      }
    }
    assert OnlyAt(s, a) && DotAfter(s, a);
  }

  lemma ShapedRegexSplit(s: string, a: int, k: int)
    requires NoWhitespace(s) && 0 < a < |s| && s[a] == '@' && OnlyAt(s, a)
    requires a + 1 < k < |s| - 1 && s[k] == '.'
    ensures RegexSplit(s, a, k)
  {
    var x, y, z := s[..a], s[a + 1..k], s[k + 1..];
    forall i | 0 <= i < |x| ensures SegmentChar(x[i]) {
      assert x[i] == s[i];
    }
    forall i | 0 <= i < |y| ensures SegmentChar(y[i]) {
      assert y[i] == s[a + 1 + i];
    }
    forall i | 0 <= i < |z| ensures SegmentChar(z[i]) {
      assert z[i] == s[k + 1 + i];
    }
  }

  // ---------------------------------------------------------------------
  // validateForm

  const NameRequired := "Name is required"
  const NameTooShort := "Name must be at least 2 characters"
  const EmailRequired := "Email is required"
  const EmailInvalid := "Please enter a valid email address"
  const SubjectRequired := "Subject is required"
  const SubjectTooShort := "Subject must be at least 5 characters"
  const MessageRequired := "Message is required"
  const MessageTooShort := "Message must be at least 10 characters"

  /**
   * A required field with a minimum trimmed length, measured as JavaScript
   * measures `length`: in UTF-16 code units.
   */
  function RequiredWithMinimum(value: string, minimum: nat, required: string, tooShort: string): Option<string> {
    if Trim(value) == "" then Some(required)
    else if Utf16Length(Trim(value)) < minimum then Some(tooShort)
    else None
  }

  /** The "required" message of each field. */
  function RequiredText(f: Field): string {
    match f
    case Name => NameRequired
    case Email => EmailRequired
    case Subject => SubjectRequired
    case Message => MessageRequired
  }

  /** The second message of each field: too short, or for the e-mail field not an address. */
  function RuleText(f: Field): string {
    match f
    case Name => NameTooShort
    case Email => EmailInvalid
    case Subject => SubjectTooShort
    case Message => MessageTooShort
  }

  /**
   * The error `validateForm` records for field `f`: the three text fields
   * check the trimmed value against a minimum; the e-mail field checks the
   * trimmed value for presence but matches the pattern against the raw value.
   */
  function FieldError(d: FormData, f: Field): (e: Option<string>)
    ensures e == Some(RequiredText(f)) <==> AllWhitespace(Get(d, f))
    ensures e.Some? ==> e.value == RequiredText(f) || e.value == RuleText(f)
  {
    TrimEmptyIff(Get(d, f));
    match f
    case Name => RequiredWithMinimum(d.name, 2, NameRequired, NameTooShort)
    case Email =>
      if Trim(d.email) == "" then Some(EmailRequired)
      else if !RegexMatches(d.email) then Some(EmailInvalid)
      else None
    case Subject => RequiredWithMinimum(d.subject, 5, SubjectRequired, SubjectTooShort)
    case Message => RequiredWithMinimum(d.message, 10, MessageRequired, MessageTooShort)
  }

  /** `validateForm`: the error record, one entry per field that has an error. */
  function ValidateForm(d: FormData): (errors: map<Field, string>)
    ensures forall f :: f in errors <==> FieldError(d, f).Some?
    ensures forall f :: f in errors ==> Some(errors[f]) == FieldError(d, f)
  {
    map f | f in AllFields && FieldError(d, f).Some? :: FieldError(d, f).value
  }

  /** The name error is "required" exactly when the trimmed name is empty, "too short" exactly when it is one UTF-16 code unit long. */
  lemma NameErrorIff(d: FormData)
    ensures FieldError(d, Name) == Some(NameRequired) <==> AllWhitespace(d.name)
    ensures FieldError(d, Name) == Some(NameTooShort) <==> Utf16Length(Trim(d.name)) == 1
    ensures FieldError(d, Name) == None <==> Utf16Length(Trim(d.name)) >= 2
  {
    TrimEmptyIff(d.name);
  }

  /** The same pattern for the subject, with a minimum of 5. */
  lemma SubjectErrorIff(d: FormData)
    ensures FieldError(d, Subject) == Some(SubjectRequired) <==> AllWhitespace(d.subject)
    ensures FieldError(d, Subject) == Some(SubjectTooShort) <==> 0 < Utf16Length(Trim(d.subject)) < 5
    ensures FieldError(d, Subject) == None <==> Utf16Length(Trim(d.subject)) >= 5
  {
    TrimEmptyIff(d.subject);
  }

  /** The same pattern for the message, with a minimum of 10. */
  lemma MessageErrorIff(d: FormData)
    ensures FieldError(d, Message) == Some(MessageRequired) <==> AllWhitespace(d.message)
    ensures FieldError(d, Message) == Some(MessageTooShort) <==> 0 < Utf16Length(Trim(d.message)) < 10
    ensures FieldError(d, Message) == None <==> Utf16Length(Trim(d.message)) >= 10
  {
    TrimEmptyIff(d.message);
  }

  /**
   * The e-mail error is "required" exactly when the address is all
   * whitespace, "invalid" exactly when it has some other character but
   * is not e-mail-shaped, and absent exactly when it is e-mail-shaped.
   */
  lemma EmailErrorIff(d: FormData)
    ensures FieldError(d, Email) == Some(EmailRequired) <==> AllWhitespace(d.email)
    ensures FieldError(d, Email) == Some(EmailInvalid) <==> !AllWhitespace(d.email) && !EmailShaped(d.email)
    ensures FieldError(d, Email) == None <==> EmailShaped(d.email)
  {
    TrimEmptyIff(d.email);
    RegexMatchesIff(d.email);
    if EmailShaped(d.email) {
      assert d.email[0] == '@' || !IsWhitespace(d.email[0]);
    }
  }

  /**
   * Lengths are JavaScript lengths: a name made of one character beyond the
   * Basic Multilingual Plane, such as U+1F600, is two code units long and
   * so long enough.
   */
  lemma AstralNameIsLongEnough()
    ensures FieldError(FormData("\U{1F600}", "", "", ""), Name) == None
  {
    var name := "\U{1F600}";
    assert !IsWhitespace(name[0]);
    assert Trim(name) == name;
    assert Utf16Length(name) == 2;
  }

  /**
   * The pattern is tested on the untrimmed value, so a well-formed address
   * typed with a leading space is rejected as invalid, not as missing.
   */
  lemma PaddedEmailIsInvalid(d: FormData, address: string)
    requires EmailShaped(address) && d.email == " " + address
    ensures FieldError(d, Email) == Some(EmailInvalid)
  {
    EmailErrorIff(d);
    assert d.email[0] == ' ';
    assert !AllWhitespace(d.email) by {
      var a :| 0 < a < |address| && address[a] == '@' && OnlyAt(address, a) && DotAfter(address, a);
      assert d.email[a + 1] == '@';
    }
  }

  /** The blur update of the error record: `f`'s entry taken from `newErrors`, every other entry kept. */
  function Refreshed(prev: map<Field, string>, newErrors: map<Field, string>, f: Field): (r: map<Field, string>)
    ensures f in r <==> f in newErrors
    ensures f in r ==> r[f] == newErrors[f]
    ensures forall g :: g != f ==> (g in r <==> g in prev) && (g in r ==> r[g] == prev[g])
  {
    if f in newErrors then prev[f := newErrors[f]] else prev - {f}
  }

  /** No error is recorded exactly when no field has one. */
  lemma NoErrorsIff(d: FormData)
    ensures ValidateForm(d) == map[] <==>
      FieldError(d, Name) == None && FieldError(d, Email) == None
      && FieldError(d, Subject) == None && FieldError(d, Message) == None
  {
    var e := ValidateForm(d);
    if e != map[] {
      var f :| f in e;
      match f
      case Name =>
      case Email =>
      case Subject =>
      case Message =>
    }
  }

  /** A form passes validation exactly when every field meets its rule. */
  lemma ValidFormIff(d: FormData)
    ensures ValidateForm(d) == map[] <==>
      Utf16Length(Trim(d.name)) >= 2 && EmailShaped(d.email) && Utf16Length(Trim(d.subject)) >= 5 && Utf16Length(Trim(d.message)) >= 10
  {
    NoErrorsIff(d);
    NameErrorIff(d);
    EmailErrorIff(d);
    SubjectErrorIff(d);
    MessageErrorIff(d);
  }

  /** The empty form has all four "required" errors. */
  lemma EmptyFormErrors()
    ensures ValidateForm(EmptyForm) ==
      map[Name := NameRequired, Email := EmailRequired, Subject := SubjectRequired, Message := MessageRequired]
  {
    TrimEmptyIff("");
    var e := ValidateForm(EmptyForm);
    assert e[Name] == NameRequired && e[Email] == EmailRequired;
    assert e[Subject] == SubjectRequired && e[Message] == MessageRequired;
  }

  // ---------------------------------------------------------------------
  // The form's state and handlers

  const FixErrorsText := "Please fix the errors in the form before submitting."
  const SentText := "Thank you! Your message has been sent successfully. I'll get back to you soon."
  const SendFailedText := "Sorry, there was an error sending your message. Please try again later."

  /** How the send that follows a valid submission ends: the `try` body completes, or the `catch` branch runs. */
  datatype Delivery = Delivered | DeliveryFailed

  class ContactForm {
    var formData: FormData
    /** `errors`; a field absent from the map has an `undefined` or missing entry. */
    var errors: map<Field, string>
    /** The fields whose `touched` entry is `true`. */
    var touched: set<Field>
    var isSubmitting: bool

    constructor ()
      ensures formData == EmptyForm && errors == map[] && touched == {} && !isSubmitting
    {
      formData := EmptyForm;
      errors := map[];
      touched := {};
      isSubmitting := false;
    }

    /** The error shown under field `f`: only a touched field with an error shows one. */
    function DisplayedError(f: Field): (shown: Option<string>)
      reads this
      ensures shown.Some? <==> f in touched && f in errors
      ensures shown.Some? ==> shown.value == errors[f]
    {
      if f in touched && f in errors then Some(errors[f]) else None
    }

    /** `handleInputChange`: sets field `f` and clears `f`'s error if it had one. */
    method HandleInputChange(f: Field, value: string)
      modifies this
      ensures formData == Set(old(formData), f, value)
      ensures errors == old(errors) - {f}
      ensures touched == old(touched) && isSubmitting == old(isSubmitting)
    {
      formData := Set(formData, f, value);
      if f in errors {
        errors := errors - {f};
      }
    }

    /** `handleInputBlur`: marks `f` touched and refreshes `f`'s error alone from a fresh validation. */
    method HandleInputBlur(f: Field)
      modifies this
      ensures touched == old(touched) + {f}
      ensures errors == Refreshed(old(errors), ValidateForm(formData), f)
      ensures DisplayedError(f) == FieldError(formData, f)
      ensures formData == old(formData) && isSubmitting == old(isSubmitting)
    {
      MarkTouched(f);
      RefreshError(f);
    }

    method MarkTouched(f: Field)
      modifies this
      ensures touched == old(touched) + {f}
      ensures errors == old(errors) && formData == old(formData) && isSubmitting == old(isSubmitting)
    {
      touched := touched + {f};
    }

    method RefreshError(f: Field)
      modifies this
      ensures errors == Refreshed(old(errors), ValidateForm(formData), f)
      ensures touched == old(touched) && formData == old(formData) && isSubmitting == old(isSubmitting)
    {
      var newErrors := ValidateForm(formData);
      errors := Refreshed(errors, newErrors, f);
    }

    /**
     * `handleSubmit`: marks every field touched and stores a fresh
     * validation. With any error it shows a 5000 ms error notification and
     * stops. Otherwise the send runs: on success a 7000 ms success
     * notification and an empty, untouched, error-free form; on failure a
     * 5000 ms error notification and the form as it was. Either way the
     * submitting flag ends false. Exactly one notification is shown.
     */
    method HandleSubmit(delivery: Delivery, notifier: Notifications.NotificationProvider)
      returns (sent: bool, expiry: Notifications.Expiry)
      requires notifier.Valid()
      modifies this, notifier
      ensures notifier.Valid()
      ensures sent <==> ValidateForm(old(formData)) == map[]
      ensures expiry.id == old(notifier.nextId) && notifier.nextId == old(notifier.nextId) + 1
      ensures !sent ==>
        && touched == AllFields && errors == ValidateForm(old(formData))
        && formData == old(formData) && isSubmitting == old(isSubmitting)
        && notifier.notifications == [Notifications.Notification(expiry.id, FixErrorsText, Notifications.Error, Some(5000))]
        && (forall f :: DisplayedError(f) == FieldError(formData, f))
      ensures sent && delivery == Delivered ==>
        && formData == EmptyForm && touched == {} && errors == map[] && !isSubmitting
        && notifier.notifications == [Notifications.Notification(expiry.id, SentText, Notifications.Success, Some(7000))]
      ensures sent && delivery == DeliveryFailed ==>
        && formData == old(formData) && touched == AllFields && errors == map[] && !isSubmitting
        && notifier.notifications == [Notifications.Notification(expiry.id, SendFailedText, Notifications.Error, Some(5000))]
      ensures expiry.delay == notifier.notifications[0].duration.value
    {
      touched := AllFields;
      var formErrors := ValidateForm(formData);
      errors := formErrors;
      if |formErrors| > 0 {
        expiry := notifier.Show(FixErrorsText, Notifications.Error, Some(5000));
        sent := false;
        return;
      }
      sent := true;
      isSubmitting := true;
      match delivery {
        case Delivered =>
          expiry := notifier.Show(SentText, Notifications.Success, Some(7000));
          formData := EmptyForm;
          touched := {};
          errors := map[];
        case DeliveryFailed =>
          expiry := notifier.Show(SendFailedText, Notifications.Error, Some(5000));
      }
      isSubmitting := false;
    }
  }
}
