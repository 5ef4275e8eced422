/** The knowledge-base route's three handlers as functions from their inputs
    (query or body, the server's API key, and what the upstream service
    answered) to the response they send. */
module RagRoute {
  import opened Wrappers
  import opened Text

  /** One document of a knowledge base, as listed to the page. */
  datatype Document = Document(fileName: string, fileType: string, status: string)

  /** A thrown value: an `Error` with its message, or anything else. */
  datatype Exn = ErrorExn(message: string) | OtherExn

  /** The outer `catch`: the error's message, or `'Server error'`. */
  function ExnMessage(e: Exn): string {
    match e
    case ErrorExn(m) => m
    case OtherExn => "Server error"
  }

  /** The JSON bodies the handlers send (timestamps are left out). */
  datatype Body =
    | ListBody(documents: seq<Document>, ragId: string, notice: Option<string>)
    | UploadBody(fileName: string, fileType: string, documentCount: int, ragId: string)
    | DeleteBody(deletedCount: nat, ragId: string)
    | ErrorBody(error: string, details: Option<string>)

  datatype Response = Response(status: nat, body: Body)

  /** Every body other than an error carries `success: true`. */
  predicate Success(r: Response) {
    !r.body.ErrorBody?
  }

  /** `response.ok`. */
  predicate IsOk(status: nat) {
    200 <= status <= 299
  }

  const KEY_MISSING := "LYZR_API_KEY not configured on server"
  const RAG_ID_MISSING := "ragId is required"
  const UNAVAILABLE := "Knowledge base service temporarily unavailable. Documents will appear when service recovers."
  const DEGRADED := "Knowledge base service is temporarily experiencing issues. Your documents are safe."
  const UNREADABLE := "Could not read error response"

  /** Decimal rendering of a status code inside an error text. */
  function NatToString(n: nat): (r: string)
    ensures |r| >= 1 && forall i :: 0 <= i < |r| ==> '0' <= r[i] <= '9'
  {
    var d := ["0", "1", "2", "3", "4", "5", "6", "7", "8", "9"][n % 10];
    if n < 10 then d else NatToString(n / 10) + d
  }

  function Fail(status: nat, error: string, details: Option<string>): Response {
    Response(status, ErrorBody(error, details))
  }

  // ---------------------------------------------------------------------------
  // GET: list the documents of a knowledge base
  // ---------------------------------------------------------------------------

  /** An entry of the upstream path list: a string, an object with a `name`
      (already converted with `String`), or any other value with its `String`
      rendering. */
  datatype Entry = EString(s: string) | ENamed(name: string) | EOther(rendered: string)

  /** The upstream's parsed list body. An object's key is `None` unless it holds
      an array. */
  datatype Listing =
    | JArray(items: seq<Entry>)
    | JObject(documents: Option<seq<Entry>>, data: Option<seq<Entry>>, files: Option<seq<Entry>>)
    | JScalar

  /** What the upstream list call produced: a network error, or a status with
      the body parsed as JSON (`None` when parsing fails) and read as text
      (`None` when reading fails). */
  datatype ListUpstream = ListNetworkError | ListReply(status: nat, json: Option<Listing>, text: Option<string>)

  /** `filePaths`: the array itself, else the first array among `documents`,
      `data`, `files`, else nothing. */
  function PathList(j: Listing): seq<Entry> {
    match j
    case JArray(items) => items
    case JObject(documents, data, files) =>
      if documents.Some? then documents.value
      else if data.Some? then data.value
      else if files.Some? then files.value
      else []
    case JScalar => []
  }

  function PathString(e: Entry): string {
    match e
    case EString(s) => s
    case ENamed(name) => name
    case EOther(rendered) => rendered
  }

  /** `pathStr.split('/').pop() || pathStr`. */
  function FileName(path: string): string {
    var last := LastSegment(path, '/');
    if last != "" then last else path
  }

  /** `fileName.split('.').pop()?.toLowerCase() || ''`. */
  function Extension(name: string): string {
    Lower(LastSegment(name, '.'))
  }

  function FileTypeOf(name: string): string {
    var ext := Extension(name);
    if ext == "pdf" then "pdf" else if ext == "docx" then "docx" else if ext == "txt" then "txt" else "unknown"
  }

  function ToDocument(e: Entry): Document {
    var name := FileName(PathString(e));
    Document(name, FileTypeOf(name), "active")
  }

  /** `filePaths.map(...)`. */
  function Documents(entries: seq<Entry>): seq<Document> {
    seq(|entries|, i requires 0 <= i < |entries| => ToDocument(entries[i]))
  }

  function EmptyList(ragId: string, notice: Option<string>): Response {
    Response(200, ListBody([], ragId, notice))
  }

  /** The GET handler. `ragId` is the query parameter (`None` when absent). */
  function Get(ragId: Option<string>, apiKey: string, up: ListUpstream): Response {
    if !Truthy(ragId) then Fail(400, RAG_ID_MISSING, None)
    else if apiKey == "" then Fail(500, KEY_MISSING, None)
    else
      var id := ragId.value;
      match up
      case ListNetworkError => EmptyList(id, Some(UNAVAILABLE))
      case ListReply(status, json, text) =>
        if status == 404 then EmptyList(id, None)
        else if IsOk(status) then
          if json.None? then EmptyList(id, None)
          else Response(200, ListBody(Documents(PathList(json.value)), id, None))
        else if status >= 500 then EmptyList(id, Some(DEGRADED))
        else Fail(status, "Failed to get documents: " + NatToString(status), Some(if text.Some? then text.value else UNREADABLE))
  }

  /** GET checks the knowledge-base id before the API key. */
  lemma GetValidationOrder(ragId: Option<string>, apiKey: string, up: ListUpstream)
    ensures !Truthy(ragId) ==> Get(ragId, apiKey, up).status == 400
    ensures Truthy(ragId) && apiKey == "" ==> Get(ragId, apiKey, up) == Fail(500, KEY_MISSING, None)
  {
  }

  /** GET answers success with an empty list when the upstream is unreachable,
      answers 404 or 5xx, or sends an unparseable success body. */
  lemma GetDegradesToEmpty(id: string, apiKey: string, up: ListUpstream)
    requires id != "" && apiKey != ""
    requires || up.ListNetworkError?
             || (up.ListReply? && (up.status == 404 || up.status >= 500 || (IsOk(up.status) && up.json.None?)))
    ensures var r := Get(Some(id), apiKey, up);
      r.status == 200 && r.body.ListBody? && r.body.documents == [] && r.body.ragId == id
  {
  }

  /** Any other failing status is passed through as a failure. */
  lemma GetPassesStatusThrough(id: string, apiKey: string, status: nat, json: Option<Listing>, text: Option<string>)
    requires id != "" && apiKey != ""
    requires !IsOk(status) && status != 404 && status < 500
    ensures var r := Get(Some(id), apiKey, ListReply(status, json, text));
      r.status == status && r.body.ErrorBody?
  {
  }

  /** The path list is the array body, else the first array key in the order
      `documents`, `data`, `files`, else empty. */
  lemma PathListSpec(j: Listing)
    ensures j.JArray? ==> PathList(j) == j.items
    ensures j.JObject? && j.documents.Some? ==> PathList(j) == j.documents.value
    ensures j.JObject? && j.documents.None? && j.data.Some? ==> PathList(j) == j.data.value
    ensures j.JObject? && j.documents.None? && j.data.None? && j.files.Some? ==> PathList(j) == j.files.value
    ensures j.JScalar? || (j.JObject? && j.documents.None? && j.data.None? && j.files.None?) ==> PathList(j) == []
  {
  }

  /** A successful listing has one active document per path entry, in order. */
  lemma ListingOnePerEntry(id: string, apiKey: string, status: nat, j: Listing, text: Option<string>)
    requires id != "" && apiKey != "" && IsOk(status)
    ensures var r := Get(Some(id), apiKey, ListReply(status, Some(j), text));
      var entries := PathList(j);
      && r.status == 200 && r.body.ListBody?
      && |r.body.documents| == |entries|
      && r.body.ragId == id
      && forall i :: 0 <= i < |entries| ==>
           && r.body.documents[i].status == "active"
           && r.body.documents[i].fileName == FileName(PathString(entries[i]))
           && r.body.documents[i].fileType == FileTypeOf(r.body.documents[i].fileName)
  {
  }

  /** The file name is the text after the last '/', or the whole path when that
      text is empty; the path always ends with it. */
  lemma FileNameSpec(path: string)
    ensures var name := FileName(path);
      && |name| <= |path| && path[|path| - |name|..] == name
      && ('/' !in name || name == path)
      && (path != [] && path[|path| - 1] == '/' ==> name == path)
      && ('/' !in path ==> name == path)
      && (name != path ==> path[|path| - |name| - 1] == '/')
      && (path != [] && path[|path| - 1] != '/' ==> '/' !in name)
  {
    LastSegmentSpec(path, '/');
    var last := LastSegment(path, '/');
  }

  /** The file type is one of four values, and `pdf`, `docx` or `txt` exactly when
      the lower-cased text after the last '.' is that word; a name without a
      dot is its own extension. */
  lemma FileTypeSpec(name: string)
    ensures FileTypeOf(name) in {"pdf", "docx", "txt", "unknown"}
    ensures FileTypeOf(name) != "unknown" <==> Extension(name) in {"pdf", "docx", "txt"}
    ensures FileTypeOf(name) != "unknown" ==> FileTypeOf(name) == Extension(name)
    ensures '.' !in name ==> Extension(name) == Lower(name)
  {
    if '.' !in name {
      SplitNoSep(name, '.');
    }
  }

  // ---------------------------------------------------------------------------
  // POST: upload and train a document
  // ---------------------------------------------------------------------------

  const PDF_MIME := "application/pdf"
  const DOCX_MIME := "application/vnd.openxmlformats-officedocument.wordprocessingml.document"
  const TXT_MIME := "text/plain"

  /** The allow-list, consulted for its own entries only. */
  function FileTypeFor(mime: string): (r: Option<string>)
    ensures r.Some? <==> mime in {PDF_MIME, DOCX_MIME, TXT_MIME}
    ensures r.Some? ==> r.value in {"pdf", "docx", "txt"}
    ensures mime == PDF_MIME ==> r == Some("pdf")
    ensures mime == DOCX_MIME ==> r == Some("docx")
    ensures mime == TXT_MIME ==> r == Some("txt")
  {
    if mime == PDF_MIME then Some("pdf")
    else if mime == DOCX_MIME then Some("docx")
    else if mime == TXT_MIME then Some("txt")
    else None
  }

  /** The names every plain JavaScript object inherits from `Object.prototype`. */
  const OBJECT_PROTOTYPE_KEYS: set<string> := {
    "constructor", "hasOwnProperty", "isPrototypeOf", "propertyIsEnumerable", "toLocaleString",
    "toString", "valueOf", "__proto__", "__defineGetter__", "__defineSetter__",
    "__lookupGetter__", "__lookupSetter__"
  }

  /** What `FILE_TYPE_MAP[file.type]` yields as written: an own entry, an
      inherited member (a function or the prototype object), or `undefined`. */
  datatype Lookup = OwnEntry(fileType: string) | Inherited(key: string) | Undefined

  function LookupAsWritten(mime: string): Lookup {
    if FileTypeFor(mime).Some? then OwnEntry(FileTypeFor(mime).value)
    else if mime in OBJECT_PROTOTYPE_KEYS then Inherited(mime)
    else Undefined
  }

  /** The `if (!fileType)` guard as written lets a value through when the
      lookup is not `undefined`. */
  predicate PassesGuardAsWritten(mime: string) {
    !LookupAsWritten(mime).Undefined?
  }

  /** The guard as written admits an inherited key such as "constructor", which
      the allow-list does not contain. A `File` lower-cases its `type`, so of
      the inherited keys only the lower-case ones ("constructor", "__proto__")
      can reach the lookup. */
  lemma InheritedKeyPassesGuard()
    ensures PassesGuardAsWritten("constructor") && PassesGuardAsWritten("__proto__")
    ensures FileTypeFor("constructor").None? && FileTypeFor("__proto__").None?
  {
  }

  /** The corrected guard admits exactly the three listed MIME types, and agrees
      with the written one on every MIME type that is not an inherited key. */
  lemma CorrectedGuard(mime: string)
    ensures FileTypeFor(mime).Some? <==> mime in {PDF_MIME, DOCX_MIME, TXT_MIME}
    ensures mime !in OBJECT_PROTOTYPE_KEYS ==> (PassesGuardAsWritten(mime) <==> FileTypeFor(mime).Some?)
  {
  }

  datatype UploadFile = UploadFile(name: string, mimeType: string)

  /** `request.formData()`: it throws, or yields the `ragId` and `file` fields
      (`None` when absent). */
  datatype Form = FormThrew(e: Exn) | Form(ragId: Option<string>, file: Option<UploadFile>)

  /** The counts in the training reply; `Some(0)` is present but falsy. */
  datatype TrainData = TrainData(documentCount: Option<int>, chunks: Option<int>)

  /** What the training call produced: a thrown `fetch`, or a status with the
      body read as text and parsed as JSON, either of which may throw. */
  datatype TrainUpstream = TrainThrew(e: Exn) | TrainReply(status: nat, text: Result<string, Exn>, json: Result<TrainData, Exn>)

  predicate NumTruthy(o: Option<int>) {
    o.Some? && o.value != 0
  }

  /** `document_count || chunks || 1`. */
  function DocumentCount(d: TrainData): (n: int)
    ensures n != 0
    ensures NumTruthy(d.documentCount) ==> n == d.documentCount.value
    ensures !NumTruthy(d.documentCount) && NumTruthy(d.chunks) ==> n == d.chunks.value
    ensures !NumTruthy(d.documentCount) && !NumTruthy(d.chunks) ==> n == 1
  {
    if NumTruthy(d.documentCount) then d.documentCount.value
    else if NumTruthy(d.chunks) then d.chunks.value
    else 1
  }

  /** The POST handler. */
  function Post(apiKey: string, form: Form, up: TrainUpstream): Response {
    if apiKey == "" then Fail(500, KEY_MISSING, None)
    else match form
      case FormThrew(e) => Fail(500, ExnMessage(e), None)
      case Form(ragId, file) =>
        if !Truthy(ragId) || file.None? then Fail(400, "ragId and file are required", None)
        else
          var f := file.value;
          var fileType := FileTypeFor(f.mimeType);
          if fileType.None? then
            Fail(400, "Unsupported file type: " + f.mimeType + ". Supported: PDF, DOCX, TXT", None)
          else match up
            case TrainThrew(e) => Fail(500, ExnMessage(e), None)
            case TrainReply(status, text, json) =>
              if !IsOk(status) then
                match text
                case Err(e) => Fail(500, ExnMessage(e), None)
                case Ok(t) => Fail(status, "Failed to train document: " + NatToString(status), Some(t))
              else
                match json
                case Err(e) => Fail(500, ExnMessage(e), None)
                case Ok(d) => Response(200, UploadBody(f.name, fileType.value, DocumentCount(d), ragId.value))
  }

  /** POST checks the API key first, then the two fields, then the MIME type;
      every rejection happens before the upstream is consulted. */
  lemma PostValidationOrder(apiKey: string, form: Form, up: TrainUpstream, up2: TrainUpstream)
    ensures apiKey == "" ==> Post(apiKey, form, up) == Fail(500, KEY_MISSING, None)
    ensures apiKey != "" && form.Form? && (!Truthy(form.ragId) || form.file.None?) ==>
      Post(apiKey, form, up) == Fail(400, "ragId and file are required", None)
    ensures apiKey != "" && form.Form? && Truthy(form.ragId) && form.file.Some?
            && FileTypeFor(form.file.value.mimeType).None? ==>
      Post(apiKey, form, up).status == 400 && Post(apiKey, form, up) == Post(apiKey, form, up2)
  {
  }

  /** A thrown form parse or call fails with 500 and the error's message; a
      refused training passes the upstream status through, unless reading its
      body throws. */
  lemma PostFailures(apiKey: string, form: Form, up: TrainUpstream)
    requires apiKey != ""
    ensures form.FormThrew? ==> Post(apiKey, form, up) == Fail(500, ExnMessage(form.e), None)
    ensures form.Form? && Truthy(form.ragId) && form.file.Some? && FileTypeFor(form.file.value.mimeType).Some? ==>
      && (up.TrainThrew? ==> Post(apiKey, form, up) == Fail(500, ExnMessage(up.e), None))
      && (up.TrainReply? && !IsOk(up.status) && up.text.Ok? ==>
            Post(apiKey, form, up) == Fail(up.status, "Failed to train document: " + NatToString(up.status), Some(up.text.value)))
      && (up.TrainReply? && !IsOk(up.status) && up.text.Err? ==> Post(apiKey, form, up).status == 500)
      && (up.TrainReply? && IsOk(up.status) && up.json.Err? ==> Post(apiKey, form, up).status == 500)
  {
  }

  /** A successful upload reports the file's name, the type its MIME type maps
      to, a non-zero document count and the id. */
  lemma PostSuccess(apiKey: string, ragId: string, f: UploadFile, status: nat, text: Result<string, Exn>, d: TrainData)
    requires apiKey != "" && ragId != "" && IsOk(status) && FileTypeFor(f.mimeType).Some?
    ensures var r := Post(apiKey, Form(Some(ragId), Some(f)), TrainReply(status, text, Ok(d)));
      && r.status == 200 && r.body.UploadBody?
      && r.body.fileName == f.name && r.body.fileType == FileTypeFor(f.mimeType).value
      && r.body.documentCount != 0 && r.body.ragId == ragId
  {
  }

  // ---------------------------------------------------------------------------
  // DELETE: remove documents
  // ---------------------------------------------------------------------------

  /** `request.json()` and the destructuring: it throws, or yields `ragId` and
      `documentNames` (`None` when not an array). */
  datatype DeleteRequest = DeleteThrew(e: Exn) | DeleteJson(ragId: Option<string>, documentNames: Option<seq<string>>)

  datatype DeleteUpstream = DeleteUpstreamThrew(e: Exn) | DeleteReply(status: nat, text: Result<string, Exn>)

  /** The DELETE handler. */
  function Delete(apiKey: string, req: DeleteRequest, up: DeleteUpstream): Response {
    if apiKey == "" then Fail(500, KEY_MISSING, None)
    else match req
      case DeleteThrew(e) => Fail(500, ExnMessage(e), None)
      case DeleteJson(ragId, names) =>
        if !Truthy(ragId) || names.None? then Fail(400, "ragId and documentNames array are required", None)
        else match up
          case DeleteUpstreamThrew(e) => Fail(500, ExnMessage(e), None)
          case DeleteReply(status, text) =>
            if IsOk(status) then Response(200, DeleteBody(|names.value|, ragId.value))
            else match text
              case Err(e) => Fail(500, ExnMessage(e), None)
              case Ok(t) => Fail(status, "Failed to delete documents: " + NatToString(status), Some(t))
  }

  /** DELETE checks the key, then the id and the array; a successful delete
      reports as many deletions as names were sent, and a failing status is
      passed through. */
  lemma DeleteSpec(apiKey: string, req: DeleteRequest, up: DeleteUpstream)
    ensures apiKey == "" ==> Delete(apiKey, req, up).status == 500
    ensures apiKey != "" && req.DeleteJson? && (!Truthy(req.ragId) || req.documentNames.None?) ==>
      Delete(apiKey, req, up).status == 400
    ensures apiKey != "" && req.DeleteJson? && Truthy(req.ragId) && req.documentNames.Some? && up.DeleteReply? ==>
      var r := Delete(apiKey, req, up);
      && (IsOk(up.status) ==> r.status == 200 && r.body == DeleteBody(|req.documentNames.value|, req.ragId.value))
      && (!IsOk(up.status) && up.text.Ok? ==> r.status == up.status && r.body.ErrorBody?)
  {
  }
}
