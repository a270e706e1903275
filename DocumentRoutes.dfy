/** The document-generator routes: listing the templates, validating a generation
    request against its template and building the response, and validating an
    uploaded template. The template directory, the JSON parser and serialiser and
    the language model are foreign and appear as values or functions. */
module DocumentRoutes {
  import opened Json

  /** One entry of a template's "required_fields". */
  datatype Field = Field(name: string, description: Option<string>)

  datatype Template = Template(name: string, description: string, promptTemplate: string, requiredFields: seq<Field>)

  /** What `get_all_templates` returns: a dict from id to template, in the order the
      files were read. */
  type Store = seq<(string, Template)>

  ghost predicate DistinctIds(store: Store) {
    forall i, j :: 0 <= i < j < |store| ==> store[i].0 != store[j].0
  }

  /** `load_template_by_id`: `templates.get(template_id)`. */
  function LoadTemplate(store: Store, id: string): (t: Option<Template>)
    ensures t.None? <==> forall i :: 0 <= i < |store| ==> store[i].0 != id
    ensures t.Some? ==> exists i :: 0 <= i < |store| && store[i] == (id, t.value)
  {
    if store == [] then None
    else if store[0].0 == id then Some(store[0].1)
    else
      var t := LoadTemplate(store[1..], id);
      assert t.Some? ==> exists i :: 0 <= i < |store[1..]| && store[1..][i] == (id, t.value);
      t
  }

  /** An HTTP outcome: a response body or an error status with its detail. */
  datatype Http<T> = Ok(body: T) | HttpError(status: int, detail: string)

  // ---------------------------------------------------------------------------
  // GET /templates
  // ---------------------------------------------------------------------------

  datatype TemplateInfo = TemplateInfo(id: string, name: string, description: string, requiredFields: seq<Field>)

  /** `get_templates`: one entry per stored template, in store order. */
  method GetTemplates(store: Store) returns (list: seq<TemplateInfo>)
    requires DistinctIds(store)
    ensures |list| == |store|
    ensures forall i :: 0 <= i < |store| ==>
      list[i] == TemplateInfo(store[i].0, store[i].1.name, store[i].1.description, store[i].1.requiredFields)
    ensures forall i, j :: 0 <= i < j < |list| ==> list[i].id != list[j].id
  {
    list := [];
    var k := 0;
    while k < |store|
      invariant 0 <= k <= |store|
      invariant |list| == k
      invariant forall i :: 0 <= i < k ==>
        list[i] == TemplateInfo(store[i].0, store[i].1.name, store[i].1.description, store[i].1.requiredFields)
    {
      var (id, data) := store[k];
      list := list + [TemplateInfo(id, data.name, data.description, data.requiredFields)];
      k := k + 1;
    }
  }

  // ---------------------------------------------------------------------------
  // POST /generate
  // ---------------------------------------------------------------------------

  datatype DocumentRequest = DocumentRequest(templateType: string, language: string, formality: string, details: map<string, Json>)

  /** The request body with pydantic's defaults: English and formal when the client
      leaves the language or the formality out. */
  function MakeRequest(templateType: string, language: Option<string>, formality: Option<string>,
                       details: map<string, Json>): (r: DocumentRequest)
    ensures r.templateType == templateType && r.details == details
    ensures language.None? ==> r.language == "English"
    ensures language.Some? ==> r.language == language.value
    ensures formality.None? ==> r.formality == "formal"
    ensures formality.Some? ==> r.formality == formality.value
  {
    DocumentRequest(templateType, language.GetOr("English"), formality.GetOr("formal"), details)
  }

  /** The response model, its metadata split into its two keys. */
  datatype DocumentResponse = DocumentResponse(
    content: string, templateUsed: string, language: string, formality: string,
    templateName: string, userInputs: map<string, Json>)

  /** The position of the first required field whose name is not a key of `details`. */
  function FirstMissingField(fields: seq<Field>, details: map<string, Json>): (r: Option<nat>)
    ensures r.Some? ==> r.value < |fields| && fields[r.value].name !in details
    ensures r.Some? ==> forall k :: 0 <= k < r.value ==> fields[k].name in details
    ensures r.None? <==> forall k :: 0 <= k < |fields| ==> fields[k].name in details
  {
    if fields == [] then None
    else if fields[0].name !in details then Some(0)
    else
      match FirstMissingField(fields[1..], details)
      case None => None
      case Some(k) => Some(k + 1)
  }

  function NotFoundDetail(id: string): string {
    "Template '" + id + "' not found"
  }

  function MissingFieldDetail(f: Field): string {
    "Missing required field: " + f.name + " - " + f.description.GetOr("")
  }

  /** FastAPI's answer to an exception the route does not catch. */
  const InternalServerError: string := "Internal Server Error"

  /** `generate_document`: 404 for an unknown template, 400 for the first required
      field missing from the details, otherwise the generated content with the
      request echoed. `compose` is the language-model call of
      `generate_document_content`; None means it raised, which the route does not
      catch, so the server answers 500. */
  function GenerateDocument(store: Store, request: DocumentRequest,
                            compose: (Template, string, string, map<string, Json>) -> Option<string>): (r: Http<DocumentResponse>)
    ensures LoadTemplate(store, request.templateType).None? ==>
      r == HttpError(404, NotFoundDetail(request.templateType))
    ensures LoadTemplate(store, request.templateType).Some? ==>
      var template := LoadTemplate(store, request.templateType).value;
      var content := compose(template, request.language, request.formality, request.details);
      var complete := forall k :: 0 <= k < |template.requiredFields| ==> template.requiredFields[k].name in request.details;
      && (r.Ok? <==> complete && content.Some?)
      && (!complete ==> exists k :: (0 <= k < |template.requiredFields|
            && template.requiredFields[k].name !in request.details
            && (forall j :: 0 <= j < k ==> template.requiredFields[j].name in request.details)
            && r == HttpError(400, MissingFieldDetail(template.requiredFields[k]))))
      && (complete && content.None? ==> r == HttpError(500, InternalServerError))
      && (r.Ok? ==> r.body == DocumentResponse(
            content.value, request.templateType, request.language, request.formality, template.name, request.details))
  {
    match LoadTemplate(store, request.templateType)
    case None => HttpError(404, NotFoundDetail(request.templateType))
    case Some(template) =>
      match FirstMissingField(template.requiredFields, request.details)
      case Some(k) =>
        var r := HttpError(400, MissingFieldDetail(template.requiredFields[k]));
        assert 0 <= k < |template.requiredFields| && template.requiredFields[k].name !in request.details;
        r
      case None =>
        match compose(template, request.language, request.formality, request.details)
        case None => HttpError(500, InternalServerError)
        case Some(content) =>
          Ok(DocumentResponse(content, request.templateType, request.language, request.formality,
                              template.name, request.details))
  }

  /** Only the required names are checked: adding any other keys to the details of a
      request that passes validation never produces a 404 or a 400; the outcome is
      then decided by the generation call alone. */
  lemma ExtraDetailsAccepted(store: Store, request: DocumentRequest, extra: map<string, Json>,
                             compose: (Template, string, string, map<string, Json>) -> Option<string>)
    requires GenerateDocument(store, request, compose).Ok?
    ensures var extended := request.(details := request.details + extra);
      var template := LoadTemplate(store, request.templateType).value;
      && (GenerateDocument(store, extended, compose).Ok? <==>
            compose(template, extended.language, extended.formality, extended.details).Some?)
      && (GenerateDocument(store, extended, compose).HttpError? ==>
            GenerateDocument(store, extended, compose) == HttpError(500, InternalServerError))
  {
    var template := LoadTemplate(store, request.templateType).value;
    assert forall k :: 0 <= k < |template.requiredFields| ==> template.requiredFields[k].name in request.details;
  }

  // ---------------------------------------------------------------------------
  // POST /upload-template
  // ---------------------------------------------------------------------------

  const RequiredKeys: seq<string> := ["id", "name", "description", "prompt_template", "required_fields"]

  /** Python's `key in template_data` for a parsed JSON value: a key of a dict, an
      element of a list, a substring of a string; None for the TypeError that numbers,
      booleans and null raise, with its message. */
  datatype Membership = Member(present: bool) | NotIterable(message: string)

  function KeyIn(key: string, data: Json): (m: Membership)
    ensures data.JObject? ==> m == Member(HasKey(data.fields, key))
  {
    match data
    case JObject(fields) => Member(HasKey(fields, key))
    case JArray(items) => Member(JString(key) in items)
    case JString(s) => Member(Contains(s, key))
    case JNumber(_) => NotIterable("argument of type 'int' is not iterable")
    case JBool(_) => NotIterable("argument of type 'bool' is not iterable")
    case JNull => NotIterable("argument of type 'NoneType' is not iterable")
  }

  /** The outcome of the key check loop. */
  datatype KeyCheck = AllPresent | MissingKey(key: string) | CheckRaised(message: string)

  /** The required-key loop, in order, stopping at the first key that is missing or
      whose test raises. */
  function CheckKeys(keys: seq<string>, data: Json): (c: KeyCheck)
    ensures c.AllPresent? <==> forall k :: 0 <= k < |keys| ==> KeyIn(keys[k], data) == Member(true)
    ensures c.MissingKey? ==> exists k :: (0 <= k < |keys| && keys[k] == c.key && KeyIn(keys[k], data) == Member(false)
      && forall j :: 0 <= j < k ==> KeyIn(keys[j], data) == Member(true))
    ensures data.JObject? ==> !c.CheckRaised?
  {
    if keys == [] then AllPresent
    else
      match KeyIn(keys[0], data)
      case NotIterable(message) => CheckRaised(message)
      case Member(false) => MissingKey(keys[0])
      case Member(true) =>
        var rest := CheckKeys(keys[1..], data);
        assert rest.MissingKey? ==> exists k :: (0 <= k < |keys[1..]| && keys[1..][k] == rest.key && KeyIn(keys[1..][k], data) == Member(false)
          && forall j :: 0 <= j < k ==> KeyIn(keys[1..][j], data) == Member(true));
        rest
  }

  /** Starlette's `str(HTTPException)` for a status-400 exception: the status code, a
      colon and the detail. */
  function BadRequestText(detail: string): string {
    "400: " + detail
  }

  /** The foreign parts of an upload: the error (if any) raised when creating the
      templates directory, the JSON parser (None for a JSONDecodeError), Python's `str()`
      of a value, the message of the TypeError raised when a list or string is indexed
      by the key "id", and the error (if any) raised when writing the file. */
  datatype UploadEnv = UploadEnv(
    makedirsError: Option<string>,
    parse: string -> Option<Json>,
    pyStr: Json -> string,
    subscriptError: Json -> string,
    writeError: Option<string>)

  /** The HTTP outcome and the file written, if any: its name and its content. */
  datatype UploadResult = UploadResult(response: Http<string>, saved: Option<(string, Json)>)

  /** The part of `upload_template` after a successful parse: the key check, the
      write, and the message. Every failure here becomes status 500. */
  function UploadParsed(data: Json, env: UploadEnv): (r: UploadResult)
    ensures r.saved.Some? ==> (data.JObject? && forall k :: 0 <= k < |RequiredKeys| ==> HasKey(data.fields, RequiredKeys[k]))
    ensures r.response.Ok? <==> r.saved.Some?
    ensures r.response.HttpError? ==> r.response.status == 500
  {
    match CheckKeys(RequiredKeys, data)
    case CheckRaised(message) => UploadResult(HttpError(500, message), None)
    case MissingKey(key) =>
      UploadResult(HttpError(500, BadRequestText("Template missing required key: " + key)), None)
    case AllPresent =>
      if !data.JObject? then UploadResult(HttpError(500, env.subscriptError(data)), None)
      else
        assert forall k :: 0 <= k < |RequiredKeys| ==> KeyIn(RequiredKeys[k], data) == Member(true);
        assert KeyIn(RequiredKeys[0], data) == Member(true) && KeyIn(RequiredKeys[1], data) == Member(true);
        if env.writeError.Some? then UploadResult(HttpError(500, env.writeError.value), None)
        else
          UploadResult(Ok("Template '" + env.pyStr(Get(data.fields, "name")) + "' uploaded successfully"),
                       Some((env.pyStr(Get(data.fields, "id")) + ".json", data)))
  }

  /** `upload_template`. Malformed JSON gives 400; every other failure inside the try,
      including the 400 raised for a missing key, is caught by the generic handler and
      becomes 500 with the exception's text. */
  function UploadTemplate(content: string, env: UploadEnv): (r: UploadResult)
    ensures env.makedirsError.Some? ==> r == UploadResult(HttpError(500, env.makedirsError.value), None)
    ensures env.makedirsError.None? && env.parse(content).None? ==> r == UploadResult(HttpError(400, "Invalid JSON format"), None)
    ensures r.saved.Some? ==> (env.parse(content).Some? && env.parse(content).value.JObject?
      && forall k :: 0 <= k < |RequiredKeys| ==> HasKey(env.parse(content).value.fields, RequiredKeys[k]))
    ensures r.response.Ok? <==> r.saved.Some?
    ensures r.response.HttpError? && env.parse(content).Some? ==> r.response.status == 500
  {
    if env.makedirsError.Some? then UploadResult(HttpError(500, env.makedirsError.value), None)
    else
      match env.parse(content)
      case None => UploadResult(HttpError(400, "Invalid JSON format"), None)
      case Some(data) => UploadParsed(data, env)
  }

  /** On a dict, the key check reports the first key, in order, that is not present. */
  lemma {:induction false} FirstAbsentKeyReported(keys: seq<string>, fields: seq<(string, Json)>, k: nat)
    requires k < |keys| && !HasKey(fields, keys[k])
    requires forall j :: 0 <= j < k ==> HasKey(fields, keys[j])
    ensures CheckKeys(keys, JObject(fields)) == MissingKey(keys[k])
  {
    if k > 0 {
      assert HasKey(fields, keys[0]);
      FirstAbsentKeyReported(keys[1..], fields, k - 1);
    }
  }

  /** A dict missing one of the keys is reported by the first missing key, in the order
      id, name, description, prompt_template, required_fields, as status 500 whose
      detail is the text of the 400 exception; nothing is written. */
  lemma MissingKeySurfacesAs500(content: string, env: UploadEnv, k: nat)
    requires env.makedirsError.None?
    requires env.parse(content).Some? && env.parse(content).value.JObject?
    requires k < |RequiredKeys| && !HasKey(env.parse(content).value.fields, RequiredKeys[k])
    requires forall j :: 0 <= j < k ==> HasKey(env.parse(content).value.fields, RequiredKeys[j])
    ensures UploadTemplate(content, env)
         == UploadResult(HttpError(500, BadRequestText("Template missing required key: " + RequiredKeys[k])), None)
  {
    var data := env.parse(content).value;
    FirstAbsentKeyReported(RequiredKeys, data.fields, k);
    assert data == JObject(data.fields);
    assert UploadTemplate(content, env) == UploadParsed(data, env);
  }

  /** A dict with all five keys is saved under its id and echoed by name. */
  lemma CompleteTemplateIsSaved(content: string, env: UploadEnv)
    requires env.makedirsError.None?
    requires env.parse(content).Some? && env.parse(content).value.JObject?
    requires forall j :: 0 <= j < |RequiredKeys| ==> HasKey(env.parse(content).value.fields, RequiredKeys[j])
    requires env.writeError.None?
    ensures HasKey(env.parse(content).value.fields, "id") && HasKey(env.parse(content).value.fields, "name")
    ensures var data := env.parse(content).value;
      UploadTemplate(content, env) == UploadResult(
        Ok("Template '" + env.pyStr(Get(data.fields, "name")) + "' uploaded successfully"),
        Some((env.pyStr(Get(data.fields, "id")) + ".json", data)))
  {
    assert RequiredKeys[0] == "id" && RequiredKeys[1] == "name";
  }
}
