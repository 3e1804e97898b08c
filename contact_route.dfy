/** The server's contact endpoint (`POST /api/contact`): it parses the JSON
    body, requires the four form fields to be truthy and answers 400 when one
    is not, 200 when all are, and 500 when anything throws on the way. */
module ContactRoute {
  import opened Common
  import opened Types
  import opened Schemas
  import ContactForm

  /** A JSON value. Numbers are modelled as integers. */
  datatype JsonValue =
    | JNull
    | JBool(b: bool)
    | JNumber(n: int)
    | JString(s: string)
    | JArray(items: seq<JsonValue>)
    | JObject(members: map<string, JsonValue>)

  /** The request body as `request.json()` sees it. */
  datatype RequestBody = Unparseable | Json(value: JsonValue)

  datatype ResponseBody =
    | ErrorBody(error: string)
    | SuccessBody(success: bool, message: string)

  datatype Response = Response(status: int, body: ResponseBody)

  const FieldsRequired := "All fields are required"
  const SentSuccessfully := "Message sent successfully"
  const SendFailed := "Failed to send message"

  /** The destructured properties, in the order they are tested. */
  const RequiredKeys: seq<string> := ["name", "email", "subject", "message"]

  /** JavaScript truthiness of a JSON value. */
  predicate TruthyValue(v: JsonValue) {
    match v
    case JNull => false
    case JBool(b) => b
    case JNumber(n) => n != 0
    case JString(s) => s != ""
    case JArray(_) => true
    case JObject(_) => true
  }

  /** Reading a property of a value that is not `null`: an object's own
      member, and `undefined` (here `None`) for anything it lacks. */
  function Property(v: JsonValue, key: string): Option<JsonValue> {
    match v
    case JObject(m) => if key in m then Some(m[key]) else None
    case _ => None
  }

  predicate TruthyProperty(v: JsonValue, key: string) {
    var p := Property(v, key);
    p.Some? && TruthyValue(p.value)
  }

  /** The reference statement of the check: every required key holds a truthy
      value. */
  predicate HasRequiredFields(v: JsonValue) {
    forall i :: 0 <= i < |RequiredKeys| ==> TruthyProperty(v, RequiredKeys[i])
  }

  lemma RequiredFieldsOneByOne(v: JsonValue)
    ensures HasRequiredFields(v) <==>
      TruthyProperty(v, "name") && TruthyProperty(v, "email")
      && TruthyProperty(v, "subject") && TruthyProperty(v, "message")
  {
    assert RequiredKeys[0] == "name" && RequiredKeys[1] == "email";
    assert RequiredKeys[2] == "subject" && RequiredKeys[3] == "message";
  }

  /** The handler. Parsing an unreadable body throws, and so does
      destructuring `null`; both end in the catch block. */
  function Post(body: RequestBody): (r: Response)
    ensures r.status == 500 <==> body.Unparseable? || body == Json(JNull)
    ensures r.status == 500 ==> r.body == ErrorBody(SendFailed)
    ensures r.status == 400 <==> body.Json? && body.value != JNull && !HasRequiredFields(body.value)
    ensures r.status == 400 ==> r.body == ErrorBody(FieldsRequired)
    ensures r.status == 200 <==> body.Json? && HasRequiredFields(body.value)
    ensures r.status == 200 ==> r.body == SuccessBody(true, SentSuccessfully)
    ensures r.status in {200, 400, 500}
  {
    RequiredFieldsOneByOne(if body.Json? then body.value else JNull);
    match body
    case Unparseable => Response(500, ErrorBody(SendFailed))
    case Json(v) =>
      if v == JNull then Response(500, ErrorBody(SendFailed))
      else if !TruthyProperty(v, "name") || !TruthyProperty(v, "email")
              || !TruthyProperty(v, "subject") || !TruthyProperty(v, "message")
      then Response(400, ErrorBody(FieldsRequired))
      else Response(200, SuccessBody(true, SentSuccessfully))
  }

  /** Members other than the four required ones do not affect the answer. */
  lemma ExtraMembersIgnored(m: map<string, JsonValue>, key: string, extra: JsonValue)
    requires key !in RequiredKeys
    ensures Post(Json(JObject(m[key := extra]))) == Post(Json(JObject(m)))
  {
    assert forall i :: 0 <= i < |RequiredKeys| ==>
      Property(JObject(m[key := extra]), RequiredKeys[i]) == Property(JObject(m), RequiredKeys[i]);
  }

  /** The form data as the client would post it. */
  function FormJson(d: ContactFormData): JsonValue {
    JObject(map["name" := JString(d.name), "email" := JString(d.email),
                "subject" := JString(d.subject), "message" := JString(d.message)])
  }

  /** Only truthiness is checked: four single spaces are accepted, and a form
      with one empty field is refused whatever the others hold. */
  lemma OnlyTruthinessChecked(d: ContactFormData)
    ensures Post(Json(FormJson(ContactFormData(" ", " ", " ", " ")))).status == 200
    ensures d.name == "" || d.email == "" || d.subject == "" || d.message == "" ==>
      Post(Json(FormJson(d))) == Response(400, ErrorBody(FieldsRequired))
    ensures d.name != "" && d.email != "" && d.subject != "" && d.message != "" ==>
      Post(Json(FormJson(d))) == Response(200, SuccessBody(true, SentSuccessfully))
  {
    var spaces := FormJson(ContactFormData(" ", " ", " ", " "));
    assert TruthyProperty(spaces, RequiredKeys[0]) && TruthyProperty(spaces, RequiredKeys[1]);
    assert TruthyProperty(spaces, RequiredKeys[2]) && TruthyProperty(spaces, RequiredKeys[3]);
  }

  /** The server is laxer than the client: whatever the contact schema
      accepts, the endpoint answers 200. */
  lemma SchemaAcceptedIsSent(d: ContactFormData, isEmail: string -> bool)
    requires Accepted(ContactForm.AsSubmission(d), isEmail)
    ensures Post(Json(FormJson(d))).status == 200
  {
    var input := ContactForm.AsSubmission(d);
    assert FieldAccepted(input, Name, isEmail) && FieldAccepted(input, Email, isEmail);
    assert FieldAccepted(input, Subject, isEmail) && FieldAccepted(input, Message, isEmail);
    OnlyTruthinessChecked(d);
  }

  /** Non-object bodies: `null` fails as an exception, any other scalar or
      array has no such properties and is refused as incomplete. */
  lemma ScalarBodies(v: JsonValue)
    requires !v.JObject?
    ensures v == JNull ==> Post(Json(v)).status == 500
    ensures v != JNull ==> Post(Json(v)).status == 400
  {
    if v != JNull {
      assert !TruthyProperty(v, RequiredKeys[0]);
    }
  }
}
