/** The contact section's form: field edits, the inline error map, the
    submitting flag, and the success and failure banners. Submission validates
    with the schema, checks the e-mail relay configuration, then hands the raw
    form data to the relay; the relay's answer arrives later as its own event. */
module ContactForm {
  import opened Common
  import opened Types
  import opened Schemas

  /** The three relay identifiers read from the environment. */
  datatype EmailConfig = EmailConfig(serviceId: Option<string>, templateId: Option<string>, publicKey: Option<string>)

  /** The parameters handed to the relay. */
  datatype TemplateParams = TemplateParams(fromName: string, fromEmail: string, subject: string, message: string)

  /** What a failed relay call throws: an optional `text` and an optional `message`. */
  datatype SendError = SendError(text: Option<string>, message: Option<string>)

  datatype SendOutcome = Delivered | Failed(error: SendError)

  const NotConfiguredMessage := "Email service is not configured. Please contact me directly at ali@alikiani.co"
  const DefaultSubject := "New Contact Form Message"
  const FailurePrefix := "Failed to send message. "
  const FailureSuffix := "Please try again or contact me directly."
  const EmptyForm := ContactFormData("", "", "", "")

  /** `validateEmailJSConfig`. */
  predicate ConfigValid(c: EmailConfig) {
    Truthy(c.serviceId) && Truthy(c.templateId) && Truthy(c.publicKey)
  }

  /** The form data as the schema sees it: the four fields, and no phone. */
  function AsSubmission(d: ContactFormData): Submission {
    Submission(d.name, d.email, d.subject, d.message, None)
  }

  /** The form fields are the schema fields other than the phone. */
  predicate IsFormField(f: Field) {
    f != Phone
  }

  function FieldValue(d: ContactFormData, f: Field): string
    requires IsFormField(f)
  {
    match f
    case Name => d.name
    case Email => d.email
    case Subject => d.subject
    case Message => d.message
  }

  /** `{ ...prev, [name]: value }`: the named field takes the new value and
      the other three keep theirs. */
  function WithField(d: ContactFormData, f: Field, v: string): (r: ContactFormData)
    requires IsFormField(f)
    ensures FieldValue(r, f) == v
    ensures forall g :: IsFormField(g) && g != f ==> FieldValue(r, g) == FieldValue(d, g)
  {
    match f
    case Name => d.(name := v)
    case Email => d.(email := v)
    case Subject => d.(subject := v)
    case Message => d.(message := v)
  }

  /** The error map the issue loop builds: each issue writes its message under
      its field, so a later issue for the same field overwrites an earlier one. */
  function ErrorMap(issues: seq<Issue>): map<Field, string>
  {
    if issues == [] then map[]
    else ErrorMap(issues[..|issues| - 1])[issues[|issues| - 1].path := issues[|issues| - 1].message]
  }

  /** The fields with an error are exactly the fields with an issue. */
  lemma {:induction false} ErrorMapKeys(issues: seq<Issue>)
    ensures forall f :: f in ErrorMap(issues) <==> HasIssueFor(issues, f)
  {
    if issues != [] {
      var init := issues[..|issues| - 1];
      ErrorMapKeys(init);
      forall f
        ensures f in ErrorMap(issues) <==> HasIssueFor(issues, f)
      {
        if HasIssueFor(init, f) {
          var i :| 0 <= i < |init| && init[i].path == f;
          assert issues[i].path == f;
        }
        if HasIssueFor(issues, f) && f != issues[|issues| - 1].path {
          var i :| 0 <= i < |issues| && issues[i].path == f;
          assert init[i].path == f;
        }
      }
    }
  }

  /** A field's error is the message of the last issue for that field. */
  lemma {:induction false} ErrorMapLastWins(issues: seq<Issue>, i: int)
    requires 0 <= i < |issues|
    requires forall j :: i < j < |issues| ==> issues[j].path != issues[i].path
    ensures issues[i].path in ErrorMap(issues)
    ensures ErrorMap(issues)[issues[i].path] == issues[i].message
  {
    if i < |issues| - 1 {
      var init := issues[..|issues| - 1];
      ErrorMapLastWins(init, i);
    }
  }

  /** The `forEach` over the issues, building `newErrors`. */
  method CollectErrors(issues: seq<Issue>) returns (newErrors: map<Field, string>)
    ensures newErrors == ErrorMap(issues)
  {
    newErrors := map[];
    for i := 0 to |issues|
      invariant newErrors == ErrorMap(issues[..i])
    {
      assert issues[..i + 1][..i] == issues[..i];
      newErrors := newErrors[issues[i].path := issues[i].message];
    }
    assert issues[..|issues|] == issues;
  }

  /** The relay parameters: the raw form data (not the parse result), with a
      default subject when the subject is empty. */
  function TemplateFor(d: ContactFormData): (r: TemplateParams)
    ensures r.fromName == d.name && r.fromEmail == d.email && r.message == d.message
    ensures r.subject != ""
    ensures d.subject != "" ==> r.subject == d.subject
  {
    TemplateParams(d.name, d.email, if d.subject == "" then DefaultSubject else d.subject, d.message)
  }

  /** The banner text after a failed relay call. */
  function FailureMessage(e: SendError): string {
    var detail :=
      if Truthy(e.text) then "Error: " + e.text.value + ". "
      else if Truthy(e.message) then "Error: " + e.message.value + ". "
      else "";
    FailurePrefix + detail + FailureSuffix
  }

  /** The failure banner starts with the fixed prefix and ends with the fixed
      advice; between them stands the error's `text` when it has one, else its
      `message` when it has one, else nothing. */
  lemma FailureMessageShape(e: SendError)
    ensures var r := FailureMessage(e);
      |r| >= |FailurePrefix| + |FailureSuffix|
      && r[..|FailurePrefix|] == FailurePrefix
      && r[|r| - |FailureSuffix|..] == FailureSuffix
    ensures Truthy(e.text) ==>
      FailureMessage(e)[|FailurePrefix|..|FailureMessage(e)| - |FailureSuffix|] == "Error: " + e.text.value + ". "
    ensures !Truthy(e.text) && Truthy(e.message) ==>
      FailureMessage(e)[|FailurePrefix|..|FailureMessage(e)| - |FailureSuffix|] == "Error: " + e.message.value + ". "
    ensures !Truthy(e.text) && !Truthy(e.message) ==> FailureMessage(e) == FailurePrefix + FailureSuffix
  {
  }

  /** What the synchronous part of a submission decides. */
  datatype SubmitResult = Invalid(errors: map<Field, string>) | NotConfigured | Send(params: TemplateParams)

  function SubmitStep(d: ContactFormData, isEmail: string -> bool, config: EmailConfig): SubmitResult {
    match SafeParse(AsSubmission(d), isEmail)
    case Rejected(issues) => Invalid(ErrorMap(issues))
    case Parsed(_) => if ConfigValid(config) then Send(TemplateFor(d)) else NotConfigured
  }

  /** The decision `handleSubmit` takes before any state changes: validate,
      collect the errors with the issue loop, check the configuration, and
      prepare the relay parameters from the raw form data. */
  method DecideSubmit(d: ContactFormData, isEmail: string -> bool, config: EmailConfig) returns (step: SubmitResult)
    ensures step == SubmitStep(d, isEmail, config)
  {
    var result := SafeParse(AsSubmission(d), isEmail);
    if result.Rejected? {
      var newErrors := CollectErrors(result.issues);
      return Invalid(newErrors);
    }
    if !ConfigValid(config) {
      return NotConfigured;
    }
    return Send(TemplateFor(d));
  }

  /** Submitting invalid data reports one error per failing field, and only
      those fields; it neither sends nor checks the configuration. */
  lemma InvalidSubmitReportsFailingFields(d: ContactFormData, isEmail: string -> bool, config: EmailConfig)
    ensures SubmitStep(d, isEmail, config).Invalid? <==> !Accepted(AsSubmission(d), isEmail)
    ensures SubmitStep(d, isEmail, config).Invalid? ==>
      forall f :: f in SubmitStep(d, isEmail, config).errors <==> !FieldAccepted(AsSubmission(d), f, isEmail)
  {
    var r := SafeParse(AsSubmission(d), isEmail);
    if r.Rejected? {
      ErrorMapKeys(r.issues);
      IssuesMatchRules(AsSubmission(d), isEmail);
    }
  }

  /** The relay is called exactly when the data is valid and the configuration
      complete; valid data with a missing identifier gets the fixed
      "not configured" outcome instead. The relay receives the raw form data:
      validation guarantees a non-empty subject, so the default subject is
      never used. */
  lemma SendOnlyValidConfigured(d: ContactFormData, isEmail: string -> bool, config: EmailConfig)
    ensures SubmitStep(d, isEmail, config).Send? <==> Accepted(AsSubmission(d), isEmail) && ConfigValid(config)
    ensures SubmitStep(d, isEmail, config).NotConfigured? <==> Accepted(AsSubmission(d), isEmail) && !ConfigValid(config)
    ensures SubmitStep(d, isEmail, config).Send? ==>
      SubmitStep(d, isEmail, config).params == TemplateParams(d.name, d.email, d.subject, d.message)
  {
    if Accepted(AsSubmission(d), isEmail) {
      assert FieldAccepted(AsSubmission(d), Subject, isEmail);
    }
  }

  /** The worked examples: a short name with a valid address, a subject and a
      25-character message is sent once, as typed; the same form with a
      10-character message reports the message-length error and sends nothing. */
  lemma SubmitScenarios(isEmail: string -> bool, config: EmailConfig)
    requires isEmail("al@example.com") && ConfigValid(config)
    ensures var d := ContactFormData("Al", "al@example.com", "Hello there", seq(25, _ => 'x'));
      SubmitStep(d, isEmail, config) == Send(TemplateParams("Al", "al@example.com", "Hello there", seq(25, _ => 'x')))
    ensures var d := ContactFormData("Al", "al@example.com", "Hello there", seq(10, _ => 'x'));
      SubmitStep(d, isEmail, config) == Invalid(map[Message := MessageTooShort])
  {
    var good := ContactFormData("Al", "al@example.com", "Hello there", seq(25, _ => 'x'));
    assert forall f :: FieldAccepted(AsSubmission(good), f, isEmail);
    var bad := ContactFormData("Al", "al@example.com", "Hello there", seq(10, _ => 'x'));
    var issues := Issues(AsSubmission(bad), isEmail);
    assert NameIssues("Al") == [] && SubjectIssues("Hello there") == [];
    assert EmailIssues("al@example.com", isEmail) == [];
    assert PhoneIssues(None) == [];
    assert issues == [Issue(Message, MessageTooShort)];
    assert ErrorMap(issues) == ErrorMap([])[Message := MessageTooShort];
  }

  /** The form component's state. `sent` records every relay call and
      `settled` the calls whose outcome has arrived; `pendingDismissals` counts
      the 5-second success timers started and not yet fired (they are never
      cancelled). */
  class ContactFormState {
    var formData: ContactFormData
    var errors: map<Field, string>
    var isSubmitting: bool
    var submitSuccess: bool
    var submitError: Option<string>
    var pendingDismissals: nat
    var sent: seq<TemplateParams>
    var settled: nat

    /** At most one banner shows; while a send is in flight neither shows;
        and `isSubmitting` holds exactly while one relay call is unanswered. */
    ghost predicate Valid()
      reads this
    {
      && !(submitSuccess && submitError.Some?)
      && (isSubmitting ==> !submitSuccess && submitError.None?)
      && |sent| == settled + (if isSubmitting then 1 else 0)
    }

    constructor ()
      ensures Valid()
      ensures formData == EmptyForm && errors == map[]
      ensures !isSubmitting && !submitSuccess && submitError.None?
      ensures pendingDismissals == 0 && sent == [] && settled == 0
    {
      formData := EmptyForm;
      errors := map[];
      isSubmitting := false;
      submitSuccess := false;
      submitError := None;
      pendingDismissals := 0;
      sent := [];
      settled := 0;
    }

    /** `handleChange`: update the edited field, clear its error if it had a
        non-empty one (to the empty string), clear both banners. */
    method HandleChange(f: Field, value: string)
      requires Valid() && IsFormField(f)
      modifies this
      ensures Valid()
      ensures formData == WithField(old(formData), f, value)
      ensures errors == if f in old(errors) && old(errors)[f] != "" then old(errors)[f := ""] else old(errors)
      ensures !submitSuccess && submitError.None?
      ensures isSubmitting == old(isSubmitting) && pendingDismissals == old(pendingDismissals)
      ensures sent == old(sent) && settled == old(settled)
    {
      formData := WithField(formData, f, value);
      if f in errors && errors[f] != "" {
        errors := errors[f := ""];
      }
      submitSuccess := false;
      submitError := None;
    }

    /** The synchronous part of `handleSubmit`, up to the relay call. The
        submit button is disabled while a send is in flight. */
    method HandleSubmit(isEmail: string -> bool, config: EmailConfig)
      requires Valid() && !isSubmitting
      modifies this
      ensures Valid()
      ensures var step := SubmitStep(old(formData), isEmail, config);
        && errors == (if step.Invalid? then step.errors else map[])
        && submitError == (if step.NotConfigured? then Some(NotConfiguredMessage) else None)
        && isSubmitting == step.Send?
        && sent == old(sent) + (if step.Send? then [step.params] else [])
      ensures !submitSuccess && formData == old(formData)
      ensures settled == old(settled) && pendingDismissals == old(pendingDismissals)
    {
      errors := map[];
      submitError := None;
      submitSuccess := false;
      var step := DecideSubmit(formData, isEmail, config);
      match step {
        case Invalid(newErrors) =>
          errors := newErrors;
        case NotConfigured =>
          submitError := Some(NotConfiguredMessage);
        case Send(params) =>
          isSubmitting := true;
          sent := sent + [params];
      }
    }

    /** The relay call's outcome arrives. Success clears the form, shows the
        success banner and starts its dismissal timer; failure shows the
        composed message and keeps the form. Either way submitting ends. */
    method DeliveryFinished(outcome: SendOutcome)
      requires Valid() && isSubmitting
      modifies this
      ensures Valid()
      ensures !isSubmitting && settled == old(settled) + 1 && sent == old(sent) && errors == old(errors)
      ensures outcome.Delivered? ==>
        submitSuccess && submitError.None? && formData == EmptyForm
        && pendingDismissals == old(pendingDismissals) + 1
      ensures outcome.Failed? ==>
        !submitSuccess && submitError == Some(FailureMessage(outcome.error))
        && formData == old(formData) && pendingDismissals == old(pendingDismissals)
    {
      match outcome {
        case Delivered =>
          submitSuccess := true;
          formData := EmptyForm;
          pendingDismissals := pendingDismissals + 1;
        case Failed(e) =>
          submitError := Some(FailureMessage(e));
      }
      isSubmitting := false;
      settled := settled + 1;
    }

    /** A success timer fires 5000 ms after its success: the success banner
        goes away, whatever happened since. */
    method DismissTimerFires()
      requires Valid() && pendingDismissals > 0
      modifies this
      ensures Valid()
      ensures !submitSuccess && pendingDismissals == old(pendingDismissals) - 1
      ensures formData == old(formData) && errors == old(errors) && submitError == old(submitError)
      ensures isSubmitting == old(isSubmitting) && sent == old(sent) && settled == old(settled)
    {
      submitSuccess := false;
      pendingDismissals := pendingDismissals - 1;
    }
  }
}
