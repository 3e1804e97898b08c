/** The contact-form validation schema (`contactSchema`): per-field chains of
    length, format and refinement checks, then the trim and lower-case
    transforms. Every check of every field runs, in declaration order, and
    each failing check contributes one issue tagged with its field; the
    transforms apply only to an accepted input. */
module Schemas {
  import opened Common

  datatype Field = Name | Email | Subject | Message | Phone

  /** One validation issue: the field it belongs to and its message. */
  datatype Issue = Issue(path: Field, message: string)

  /** The schema's input and (after the transforms) its output. */
  datatype Submission = Submission(
    name: string, email: string, subject: string, message: string, phone: Option<string>)

  /** The outcome of `safeParse`. */
  datatype ParseResult = Parsed(data: Submission) | Rejected(issues: seq<Issue>)

  const NameTooShort := "Name must be at least 2 characters"
  const NameTooLong := "Name must be less than 50 characters"
  const InvalidEmail := "Invalid email address"
  const EmailTooShort := "Email must be at least 5 characters"
  const SubjectTooShort := "Subject must be at least 5 characters"
  const SubjectTooLong := "Subject must be less than 100 characters"
  const MessageTooShort := "Message must be at least 20 characters"
  const MessageTooLong := "Message must be less than 1000 characters"
  const InvalidPhone := "Invalid phone number format"

  /** The characters the phone pattern `^[\d\s\-\+\(\)]+$` admits. */
  predicate PhoneChar(c: char) {
    '0' <= c <= '9' || IsWhitespace(c) || c == '-' || c == '+' || c == '(' || c == ')'
  }

  // Reference statement of each field's rule, written independently of the
  // check chains below.

  predicate FieldAccepted(input: Submission, f: Field, isEmail: string -> bool) {
    match f
    case Name => 2 <= |input.name| <= 50
    case Email => isEmail(input.email) && 5 <= |input.email|
    case Subject => 5 <= |input.subject| <= 100
    case Message => 20 <= |input.message| <= 1000
    case Phone =>
      match input.phone
      case None => true
      case Some(p) => p == [] || forall i :: 0 <= i < |p| ==> PhoneChar(p[i])
  }

  predicate Accepted(input: Submission, isEmail: string -> bool) {
    forall f: Field :: FieldAccepted(input, f, isEmail)
  }

  // The check chains, in the order the schema declares them.

  /** One check: no issue when it passes, one issue when it fails. */
  function Check(ok: bool, path: Field, message: string): seq<Issue> {
    if ok then [] else [Issue(path, message)]
  }

  function NameIssues(s: string): seq<Issue> {
    Check(|s| >= 2, Name, NameTooShort) + Check(|s| <= 50, Name, NameTooLong)
  }

  function EmailIssues(s: string, isEmail: string -> bool): seq<Issue> {
    Check(isEmail(s), Email, InvalidEmail) + Check(|s| >= 5, Email, EmailTooShort)
  }

  function SubjectIssues(s: string): seq<Issue> {
    Check(|s| >= 5, Subject, SubjectTooShort) + Check(|s| <= 100, Subject, SubjectTooLong)
  }

  function MessageIssues(s: string): seq<Issue> {
    Check(|s| >= 20, Message, MessageTooShort) + Check(|s| <= 1000, Message, MessageTooLong)
  }

  /** The refinement `!val || /^[\d\s\-\+\(\)]+$/.test(val)`. */
  function PhoneIssues(p: Option<string>): seq<Issue> {
    Check(!Truthy(p) || forall i :: 0 <= i < |p.value| ==> PhoneChar(p.value[i]), Phone, InvalidPhone)
  }

  /** Every issue of the object schema, field by field in shape order. */
  function Issues(input: Submission, isEmail: string -> bool): seq<Issue> {
    NameIssues(input.name) + EmailIssues(input.email, isEmail) + SubjectIssues(input.subject)
    + MessageIssues(input.message) + PhoneIssues(input.phone)
  }

  /** `contactSchema.safeParse`: an input is accepted exactly when every field
      rule holds, bounds are measured on the raw strings, and an accepted
      input comes back trimmed, with the e-mail also lower-cased. A rejected
      input yields at least one issue, and only for fields whose rule fails. */
  function SafeParse(input: Submission, isEmail: string -> bool): (r: ParseResult)
    ensures r.Parsed? <==> Accepted(input, isEmail)
    ensures r.Parsed? ==>
      r.data == Submission(Trim(input.name), Lower(Trim(input.email)), Trim(input.subject),
                           Trim(input.message), input.phone)
    ensures r.Rejected? ==>
      r.issues != [] && forall i :: 0 <= i < |r.issues| ==> !FieldAccepted(input, r.issues[i].path, isEmail)
  {
    var issues := Issues(input, isEmail);
    IssuesMatchRules(input, isEmail);
    if issues == [] then
      Parsed(Submission(Trim(input.name), Lower(Trim(input.email)), Trim(input.subject),
                        Trim(input.message), input.phone))
    else
      Rejected(issues)
  }

  predicate HasIssueFor(issues: seq<Issue>, f: Field) {
    exists i :: 0 <= i < |issues| && issues[i].path == f
  }

  lemma HasIssueForConcat(a: seq<Issue>, b: seq<Issue>, f: Field)
    ensures HasIssueFor(a + b, f) <==> HasIssueFor(a, f) || HasIssueFor(b, f)
  {
    if HasIssueFor(a + b, f) {
      var i :| 0 <= i < |a + b| && (a + b)[i].path == f;
      if i >= |a| {
        assert b[i - |a|].path == f;
      }
    }
    if HasIssueFor(a, f) {
      var i :| 0 <= i < |a| && a[i].path == f;
      assert (a + b)[i].path == f;
    }
    if HasIssueFor(b, f) {
      var i :| 0 <= i < |b| && b[i].path == f;
      assert (a + b)[|a| + i].path == f;
    }
  }

  /** The issues of one field's chain name that field exactly when its rule
      fails, and no other field. */
  lemma ChainIssues(input: Submission, isEmail: string -> bool, f: Field)
    ensures HasIssueFor(NameIssues(input.name), f) <==> f == Name && !FieldAccepted(input, Name, isEmail)
    ensures HasIssueFor(EmailIssues(input.email, isEmail), f) <==> f == Email && !FieldAccepted(input, Email, isEmail)
    ensures HasIssueFor(SubjectIssues(input.subject), f) <==> f == Subject && !FieldAccepted(input, Subject, isEmail)
    ensures HasIssueFor(MessageIssues(input.message), f) <==> f == Message && !FieldAccepted(input, Message, isEmail)
    ensures HasIssueFor(PhoneIssues(input.phone), f) <==> f == Phone && !FieldAccepted(input, Phone, isEmail)
  {
    TwoChecks(|input.name| >= 2, |input.name| <= 50, Name, NameTooShort, NameTooLong, f);
    TwoChecks(isEmail(input.email), |input.email| >= 5, Email, InvalidEmail, EmailTooShort, f);
    TwoChecks(|input.subject| >= 5, |input.subject| <= 100, Subject, SubjectTooShort, SubjectTooLong, f);
    TwoChecks(|input.message| >= 20, |input.message| <= 1000, Message, MessageTooShort, MessageTooLong, f);
    var p := PhoneIssues(input.phone);
    if !FieldAccepted(input, Phone, isEmail) { assert p[0].path == Phone; }
  }

  /** Two checks on the same field report that field, and only it, exactly
      when one of them fails. */
  lemma TwoChecks(ok1: bool, ok2: bool, path: Field, m1: string, m2: string, f: Field)
    ensures HasIssueFor(Check(ok1, path, m1) + Check(ok2, path, m2), f) <==> f == path && !(ok1 && ok2)
  {
    var c := Check(ok1, path, m1) + Check(ok2, path, m2);
    if !(ok1 && ok2) { assert c[0].path == path; }
  }

  /** The issue list names exactly the failing fields: a field has an issue if
      and only if its rule fails, so all fields are checked, not only the first
      bad one. */
  lemma IssuesMatchRules(input: Submission, isEmail: string -> bool)
    ensures forall f: Field :: HasIssueFor(Issues(input, isEmail), f) <==> !FieldAccepted(input, f, isEmail)
    ensures Issues(input, isEmail) == [] <==> Accepted(input, isEmail)
  {
    var n, e, s, m, p := NameIssues(input.name), EmailIssues(input.email, isEmail),
      SubjectIssues(input.subject), MessageIssues(input.message), PhoneIssues(input.phone);
    var all := Issues(input, isEmail);
    forall f: Field
      ensures HasIssueFor(all, f) <==> !FieldAccepted(input, f, isEmail)
    {
      HasIssueForConcat(n + e + s + m, p, f);
      HasIssueForConcat(n + e + s, m, f);
      HasIssueForConcat(n + e, s, f);
      HasIssueForConcat(n, e, f);
      ChainIssues(input, isEmail, f);
    }
    if all != [] {
      assert HasIssueFor(all, all[0].path);
    }
  }

  /** A worked rejection: a ten-character message fails with the message
      length issue, and that field is reported. */
  lemma ShortMessageRejected(input: Submission, isEmail: string -> bool)
    requires |input.message| == 10
    ensures SafeParse(input, isEmail).Rejected?
    ensures HasIssueFor(SafeParse(input, isEmail).issues, Message)
    ensures Issue(Message, MessageTooShort) in SafeParse(input, isEmail).issues
  {
    IssuesMatchRules(input, isEmail);
    var all := Issues(input, isEmail);
    var prefix := NameIssues(input.name) + EmailIssues(input.email, isEmail) + SubjectIssues(input.subject);
    assert all[|prefix|] == Issue(Message, MessageTooShort);
  }

  /** The name's upper bound is inclusive although its message says "less
      than 50", and the bounds apply before trimming: fifty characters are
      accepted, and so is a padded name that trims to a single character. */
  lemma NameBoundsOnRawString(isEmail: string -> bool)
    ensures FieldAccepted(Submission(seq(50, _ => 'a'), "", "", "", None), Name, isEmail)
    ensures !FieldAccepted(Submission(seq(51, _ => 'a'), "", "", "", None), Name, isEmail)
    ensures FieldAccepted(Submission("a ", "", "", "", None), Name, isEmail) && Trim("a ") == "a"
  {
    assert TrimStart("a ") == "a ";
    assert TrimEnd("a ") == TrimEnd("a");
  }

  /** Two e-mail addresses that differ only in letter case parse to the same
      normalised address, given a format rule that ignores case. */
  lemma EmailCaseInsensitive(input: Submission, email2: string, isEmail: string -> bool)
    requires SameIgnoringCase(input.email, email2)
    requires isEmail(input.email) == isEmail(email2)
    ensures var other := input.(email := email2);
      SafeParse(input, isEmail).Parsed? == SafeParse(other, isEmail).Parsed?
      && (SafeParse(input, isEmail).Parsed? ==>
            SafeParse(input, isEmail).data.email == SafeParse(other, isEmail).data.email)
  {
    var other := input.(email := email2);
    assert forall f: Field :: FieldAccepted(input, f, isEmail) == FieldAccepted(other, f, isEmail);
    LowerEqualIffSameIgnoringCase(input.email, email2);
    TrimLowerCommute(input.email);
    TrimLowerCommute(email2);
  }

  /** A phone number is valid when absent or empty; otherwise every character
      must come from the phone alphabet. */
  lemma PhoneRule(input: Submission, isEmail: string -> bool)
    ensures input.phone.None? ==> !HasIssueFor(Issues(input, isEmail), Phone)
    ensures input.phone == Some("") ==> !HasIssueFor(Issues(input, isEmail), Phone)
    ensures input.phone == Some("+1 (555) 010-9999") ==> !HasIssueFor(Issues(input, isEmail), Phone)
    ensures input.phone == Some("555-CALL") ==> HasIssueFor(Issues(input, isEmail), Phone)
  {
    IssuesMatchRules(input, isEmail);
    if input.phone == Some("555-CALL") {
      assert !PhoneChar(input.phone.value[4]);
    }
  }
}
