/**
  The Contact page's form: four controlled fields, the phone field's HTML
  `pattern` check, and the submission handler with its success flag and
  delayed reset. The network call is an input (its outcome); the delayed
  reset is a discrete event.
 */
module Contact {
  import opened Common

  datatype Field = Name | Email | Phone | Message

  /** The `formData` state cell. */
  datatype FormData = FormData(name: string, email: string, phone: string, message: string) {
    function Get(f: Field): string {
      match f
      case Name => name
      case Email => email
      case Phone => phone
      case Message => message
    }

    /** `{ ...formData, [f]: value }`: one field replaced, the other three kept. */
    function With(f: Field, value: string): (r: FormData)
      ensures r.Get(f) == value
      ensures forall g :: g != f ==> r.Get(g) == Get(g)
    {
      match f
      case Name => this.(name := value)
      case Email => this.(email := value)
      case Phone => this.(phone := value)
      case Message => this.(message := value)
    }
  }

  const EmptyForm: FormData := FormData("", "", "", "")

  // ---------------------------------------------------------------------
  // The phone input: pattern="[0-9\s\-\(\)\+]{6,}"

  /**
    The regular-expression class `\s`: the ECMAScript WhiteSpace and
    LineTerminator code points.
   */
  predicate IsRegExpWhitespace(c: char) {
    var n := c as int;
    n == 0x09 || n == 0x0A || n == 0x0B || n == 0x0C || n == 0x0D || n == 0x20 ||
    n == 0xA0 || n == 0x1680 || (0x2000 <= n <= 0x200A) || n == 0x2028 || n == 0x2029 ||
    n == 0x202F || n == 0x205F || n == 0x3000 || n == 0xFEFF
  }

  /** The character class `[0-9\s\-\(\)\+]`. */
  predicate IsPhoneChar(c: char) {
    ('0' <= c <= '9') || IsRegExpWhitespace(c) || c == '-' || c == '(' || c == ')' || c == '+'
  }

  const PhoneMinLength: nat := 6

  /**
    Whether the whole of `value` matches `[class]{atLeast,}`: the browser
    anchors a `pattern` at both ends, so every character must be consumed
    by the repetition.
   */
  function PhoneCharsAtLeast(value: string, atLeast: nat): (r: bool)
    ensures r <==> |value| >= atLeast && forall i :: 0 <= i < |value| ==> IsPhoneChar(value[i])
  {
    if value == [] then atLeast == 0
    else IsPhoneChar(value[0]) && PhoneCharsAtLeast(value[1..], if atLeast == 0 then 0 else atLeast - 1)
  }

  predicate PhoneMatchesPattern(value: string) {
    PhoneCharsAtLeast(value, PhoneMinLength)
  }

  /** The number of ASCII digits in `s`: all of its characters exactly when they are all digits. */
  function DigitCount(s: string): (r: nat)
    ensures r <= |s|
    ensures r == |s| <==> forall i :: 0 <= i < |s| ==> '0' <= s[i] <= '9'
  {
    if s == [] then 0 else (if '0' <= s[0] <= '9' then 1 else 0) + DigitCount(s[1..])
  }

  /**
    The pattern counts characters, not digits, although the field's title
    asks for "at least 6 digits": six hyphens pass without a single digit,
    while the page's own number is accepted too.
   */
  lemma PatternCountsCharacters()
    ensures PhoneMatchesPattern("------") && DigitCount("------") == 0
    ensures PhoneMatchesPattern("022 654 1537")
    ensures !PhoneMatchesPattern("12345") && !PhoneMatchesPattern("123456x")
  {
    assert !IsPhoneChar("123456x"[6]);
  }

  /**
    Interactive validation before `onSubmit` runs: every field is `required`
    (so none may be empty), a non-empty phone value must match its pattern,
    and the email value must pass the browser's `type="email"` check, whose
    verdict is the parameter `emailAccepted`.
   */
  predicate PassesValidation(form: FormData, emailAccepted: bool) {
    && form.name != "" && form.email != "" && form.phone != "" && form.message != ""
    && (form.phone != "" ==> PhoneMatchesPattern(form.phone))
    && emailAccepted
  }

  /** A form that can be sent has a phone value of at least six allowed characters. */
  lemma ValidatedPhone(form: FormData, emailAccepted: bool)
    requires PassesValidation(form, emailAccepted)
    ensures |form.phone| >= PhoneMinLength
    ensures forall i :: 0 <= i < |form.phone| ==> IsPhoneChar(form.phone[i])
  {
  }

  /** The form just after a success is not sendable as it stands: the fields are empty. */
  lemma ClearedFormFailsValidation(emailAccepted: bool)
    ensures !PassesValidation(EmptyForm, emailAccepted)
  {
  }

  const FormEndpoint: string := "https://formspree.io/f/mblvazwn"

  /**
    How the awaited `fetch` settles: it resolves with any HTTP status, 4xx and
    5xx included, and rejects only when no response arrives.
   */
  datatype FetchOutcome = Responded(status: int) | NetworkError

  /**
    The page's form state: `formData`, `submitted`, the requests sent whose
    `fetch` has not settled yet, and the reset timers not yet fired. While a
    request is in flight the form stays live: it can be edited and sent again.
   */
  class ContactForm {
    var formData: FormData
    var submitted: bool
    var inFlight: nat
    var pendingResets: nat

    /** The success message is transient: while it shows, a reset is scheduled. */
    predicate Valid()
      reads this
    {
      submitted ==> pendingResets > 0
    }

    constructor ()
      ensures Valid()
      ensures formData == EmptyForm && !submitted && inFlight == 0 && pendingResets == 0
    {
      formData := EmptyForm;
      submitted := false;
      inFlight := 0;
      pendingResets := 0;
    }

    /** A field's `onChange`: only that field takes the typed value. */
    method Edit(field: Field, value: string)
      requires Valid()
      modifies this
      ensures Valid()
      ensures formData == old(formData).With(field, value)
      ensures submitted == old(submitted) && inFlight == old(inFlight) && pendingResets == old(pendingResets)
    {
      formData := formData.With(field, value);
    }

    /**
      `handleSubmit` up to its `await`: the endpoint is set, so the current
      fields are POSTed and the request is in flight. Returns the body sent.
     */
    method Send() returns (request: Option<FormData>)
      requires Valid()
      modifies this
      ensures Valid()
      ensures request == Some(formData)
      ensures formData == old(formData) && submitted == old(submitted)
      ensures inFlight == old(inFlight) + 1 && pendingResets == old(pendingResets)
    {
      request := None;
      if FormEndpoint != "" {
        request := Some(formData);
        inFlight := inFlight + 1;
      }
    }

    /**
      `handleSubmit` after its `await`: a request settles. With a response the
      flag is raised, the fields as they are NOW are cleared and a reset is
      scheduled; when it rejects the error is only logged, so nothing else
      changes.
     */
    method Settle(outcome: FetchOutcome)
      requires Valid() && inFlight > 0
      modifies this
      ensures Valid()
      ensures inFlight == old(inFlight) - 1
      ensures outcome.Responded? ==> formData == EmptyForm && submitted && pendingResets == old(pendingResets) + 1
      ensures outcome.NetworkError? ==>
        formData == old(formData) && submitted == old(submitted) && pendingResets == old(pendingResets)
    {
      inFlight := inFlight - 1;
      match outcome
      case Responded(_) =>
        submitted := true;
        formData := EmptyForm;
        pendingResets := pendingResets + 1;
      case NetworkError =>
    }

    /**
      Pressing "Send Message": the browser runs `handleSubmit` only when the
      form passes validation; otherwise no request is made and nothing changes.
     */
    method Submit(emailAccepted: bool) returns (request: Option<FormData>)
      requires Valid()
      modifies this
      ensures Valid()
      ensures request == if PassesValidation(old(formData), emailAccepted) then Some(old(formData)) else None
      ensures formData == old(formData) && submitted == old(submitted) && pendingResets == old(pendingResets)
      ensures inFlight == old(inFlight) + (if request.Some? then 1 else 0)
    {
      if PassesValidation(formData, emailAccepted) {
        request := Send();
      } else {
        request := None;
      }
    }

    /**
      A scheduled `setTimeout(() => setSubmitted(false), 3000)` fires. An older
      timer hides the message even when a newer success scheduled its own.
     */
    method ResetTimerFires()
      requires Valid() && pendingResets > 0
      modifies this
      ensures Valid()
      ensures !submitted && formData == old(formData) && inFlight == old(inFlight)
      ensures pendingResets == old(pendingResets) - 1
    {
      submitted := false;
      pendingResets := pendingResets - 1;
    }
  }

  /**
    A full successful round: fill in the four fields, send, receive a reply
    and let the timer fire. The request carries what was typed, and the form
    ends empty with the success message gone.
   */
  method SendOnce(form: ContactForm, name: string, email: string, phone: string, message: string)
    returns (request: Option<FormData>)
    requires form.Valid()
    requires name != "" && email != "" && message != "" && PhoneMatchesPattern(phone)
    modifies form
    ensures form.Valid()
    ensures request == Some(FormData(name, email, phone, message))
    ensures form.formData == EmptyForm && !form.submitted
    ensures form.inFlight == old(form.inFlight) && form.pendingResets == old(form.pendingResets)
  {
    form.Edit(Name, name);
    form.Edit(Email, email);
    form.Edit(Phone, phone);
    form.Edit(Message, message);
    assert form.formData == FormData(name, email, phone, message);
    request := form.Submit(true);
    form.Settle(Responded(200));
    form.ResetTimerFires();
  }

  /**
    A field edited while the request is in flight is cleared when the reply
    arrives, without ever having been sent.
   */
  method EditWhileInFlight(form: ContactForm, field: Field, value: string) returns (request: Option<FormData>)
    requires form.Valid()
    modifies form
    ensures form.Valid()
    ensures request == Some(old(form.formData))
    ensures form.formData == EmptyForm && form.submitted
    ensures form.inFlight == old(form.inFlight)
  {
    request := form.Send();
    form.Edit(field, value);
    form.Settle(Responded(200));
  }

  /**
    Pressing "Send Message" twice before the reply sends the same fields
    twice: the form is only cleared when a request settles.
   */
  method DoubleSubmit(form: ContactForm, emailAccepted: bool) returns (first: Option<FormData>, second: Option<FormData>)
    requires form.Valid() && PassesValidation(form.formData, emailAccepted)
    modifies form
    ensures form.Valid()
    ensures first == second == Some(old(form.formData))
    ensures form.inFlight == old(form.inFlight) + 2
  {
    first := form.Submit(emailAccepted);
    second := form.Submit(emailAccepted);
  }
}
