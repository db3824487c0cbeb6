/** The decision logic of the backend client: where requests go, how a
    response becomes a result or an error, and what an upload sends. The
    HTTP exchange itself is a parameter: a function from what is sent to
    what comes back. */
module Backend {

  import opened Wrappers
  import opened JsText
  import opened Models
  import opened Errors
  import Types

  /** The API version in every request path. */
  const VERSION: nat := 1

  /** `s.replace(/\/$/, "")`: one trailing slash, if there is one, is cut. */
  function DropTrailingSlash(s: string): (r: string)
    ensures EndsWith(s, "/") ==> r + "/" == s
    ensures !EndsWith(s, "/") ==> r == s
  {
    if EndsWith(s, "/") then s[..|s| - 1] else s
  }

  /** The path segment `/v${VERSION}` is "/v1", the text `ApiBaseUrl`
      appends. */
  lemma VersionText()
    ensures "/v" + NatText(VERSION) == "/v1"
  {
    assert NatText(1) == ['1'];
  }

  /** `BASE_API_URL`: the configured public URL with surrounding white space
      trimmed and one trailing slash, if any, removed, followed by "/v1". */
  function ApiBaseUrl(publicApiUrl: string): (r: string)
    ensures EndsWith(r, "/v1")
    ensures var head := r[..|r| - 3];
      IsTrimOf(head + "/", publicApiUrl)
      || (IsTrimOf(head, publicApiUrl) && !EndsWith(head, "/"))
  {
    var head := DropTrailingSlash(Trim(publicApiUrl));
    var r := head + "/v1";
    assert r[..|r| - 3] == head;
    TrimmedHead(publicApiUrl);
    r
  }

  lemma TrimmedHead(u: string)
    ensures var t := Trim(u);
      var head := DropTrailingSlash(t);
      IsTrimOf(head + "/", u) || (IsTrimOf(head, u) && !EndsWith(head, "/"))
  {
    var t := Trim(u);
    var head := DropTrailingSlash(t);
    if EndsWith(t, "/") {
      assert head + "/" == t;
    } else {
      assert head == t;
    }
  }

  /** Only the trimmed, slash-stripped text matters: one more trailing slash,
      or any white space and line terminators around the text, change
      nothing. */
  lemma ApiBaseUrlNormalises(u: string, p: string, q: string)
    requires Trim(u) == u
    requires forall i :: 0 <= i < |p| ==> IsTrimmed(p[i])
    requires forall i :: 0 <= i < |q| ==> IsTrimmed(q[i])
    ensures !EndsWith(u, "/") ==> ApiBaseUrl(u + "/") == ApiBaseUrl(u)
    ensures ApiBaseUrl(p + u + q) == ApiBaseUrl(u)
    ensures !EndsWith(u, "/") ==> ApiBaseUrl(p + u + "/" + q) == ApiBaseUrl(u)
  {
    PaddingIgnored(u, p, q);
    if !EndsWith(u, "/") {
      SlashIgnored(u);
      SlashPaddingIgnored(u, p, q);
    }
  }

  lemma SlashPaddingIgnored(u: string, p: string, q: string)
    requires Trim(u) == u && !EndsWith(u, "/")
    requires forall i :: 0 <= i < |p| ==> IsTrimmed(p[i])
    requires forall i :: 0 <= i < |q| ==> IsTrimmed(q[i])
    ensures ApiBaseUrl(p + u + "/" + q) == ApiBaseUrl(u + "/")
  {
    TrimSlashed(u);
    assert p + u + "/" + q == p + (u + "/") + q;
    PaddingIgnored(u + "/", p, q);
  }

  lemma SlashIgnored(u: string)
    requires Trim(u) == u && !EndsWith(u, "/")
    ensures ApiBaseUrl(u + "/") == ApiBaseUrl(u)
  {
    var plain := ApiBaseUrlOfTrim(u, u);
    TrimSlashed(u);
    var w := u + "/";
    assert w[..|u|] == u;
    var slashed := ApiBaseUrlOfTrim(w, w);
  }

  lemma PaddingIgnored(u: string, p: string, q: string)
    requires Trim(u) == u
    requires forall i :: 0 <= i < |p| ==> IsTrimmed(p[i])
    requires forall i :: 0 <= i < |q| ==> IsTrimmed(q[i])
    ensures ApiBaseUrl(p + u + q) == ApiBaseUrl(u)
  {
    TrimPadded(u, p, q);
    var plain := ApiBaseUrlOfTrim(u, u);
    var padded := ApiBaseUrlOfTrim(p + u + q, u);
  }

  /** `ApiBaseUrl` of a text whose trim is known. */
  lemma ApiBaseUrlOfTrim(u: string, t: string) returns (r: string)
    requires Trim(u) == t
    ensures r == DropTrailingSlash(t) + "/v1" && ApiBaseUrl(u) == r
  {
    r := DropTrailingSlash(t) + "/v1";
  }

  /** A trimmed string neither starts nor ends with a trimmable character. */
  lemma TrimmedEnds(u: string)
    requires Trim(u) == u && u != []
    ensures !IsTrimmed(u[0]) && !IsTrimmed(u[|u| - 1])
  {
    var t := TrimStart(u);
    assert Trim(u) == TrimEnd(t);
    assert u == t[..|u|];
    assert u[0] == t[0];
  }

  /** A string that neither starts nor ends with a trimmable character is
      its own trim. */
  lemma NotTrimmedAtEnds(w: string)
    requires w != [] && !IsTrimmed(w[0]) && !IsTrimmed(w[|w| - 1])
    ensures Trim(w) == w
  {
    assert TrimStart(w) == w;
    assert TrimEnd(w) == w;
  }

  lemma TrimSlashed(u: string)
    requires Trim(u) == u
    ensures Trim(u + "/") == u + "/"
  {
    var w := u + "/";
    assert w[|w| - 1] == '/';
    if u != [] {
      TrimmedEnds(u);
      assert w[0] == u[0];
    }
    assert !IsTrimmed(w[0]) && !IsTrimmed(w[|w| - 1]);
    NotTrimmedAtEnds(w);
  }

  /** A trimmed text surrounded by trimmable characters trims back to
      itself. */
  lemma TrimPadded(u: string, p: string, q: string)
    requires Trim(u) == u
    requires forall i :: 0 <= i < |p| ==> IsTrimmed(p[i])
    requires forall i :: 0 <= i < |q| ==> IsTrimmed(q[i])
    ensures Trim(p + u + q) == u
  {
    var v := u + q;
    assert p + u + q == p + v;
    TrimStartSkipsAll(p, v);
    if u != [] {
      TrimmedEnds(u);
      assert v[0] == u[0];
      assert TrimStart(v) == v;
      TrimEndSkipsAll(u, q);
      assert TrimEnd(u) == u;
    } else {
      assert v == q;
      assert TrimStart(q) == [];
    }
  }

  lemma {:induction false} TrimStartSkipsAll(p: string, w: string)
    requires forall i :: 0 <= i < |p| ==> IsTrimmed(p[i])
    ensures TrimStart(p + w) == TrimStart(w)
  {
    if p != [] {
      var s := p + w;
      assert s[0] == p[0];
      assert IsTrimmed(s[0]);
      assert s[1..] == p[1..] + w;
      assert TrimStart(s) == TrimStart(s[1..]);
      TrimStartSkipsAll(p[1..], w);
    } else {
      assert p + w == w;
    }
  }

  lemma {:induction false} TrimEndSkipsAll(w: string, q: string)
    requires forall i :: 0 <= i < |q| ==> IsTrimmed(q[i])
    ensures TrimEnd(w + q) == TrimEnd(w)
  {
    if q != [] {
      var front := q[..|q| - 1];
      var s := w + q;
      assert s[|s| - 1] == q[|q| - 1];
      assert IsTrimmed(s[|s| - 1]);
      assert s[..|s| - 1] == w + front;
      assert TrimEnd(s) == TrimEnd(s[..|s| - 1]);
      TrimEndSkipsAll(w, front);
    } else {
      assert w + q == w;
    }
  }

  /** The address `fetchPaste` requests. */
  function FetchPasteUrl(base: string, id: string, content: bool): (r: string)
    ensures StartsWith(r, base + "/pastes/" + id + "?content=")
    ensures EndsWith(r, BoolText(content))
    ensures |r| == |base| + 8 + |id| + 9 + |BoolText(content)|
  {
    base + "/pastes/" + id + "?content=" + BoolText(content)
  }

  /** The fifth character from the end tells `true` from `false`. */
  lemma ContentFlagAt(base: string, id: string, content: bool)
    ensures var u := FetchPasteUrl(base, id, content);
      u[|u| - 5] == if content then '=' else 'f'
  {
    var u := FetchPasteUrl(base, id, content);
    var p := base + "/pastes/" + id + "?content=";
    assert u == p + BoolText(content);
    if content {
      assert u[|u| - 5] == p[|p| - 1];
    } else {
      assert u[|u| - 5] == BoolText(content)[0];
    }
  }

  /** Different pastes, or the same paste with and without content, are
      requested at different addresses. */
  lemma FetchPasteUrlInjective(base: string, id1: string, c1: bool, id2: string, c2: bool)
    requires FetchPasteUrl(base, id1, c1) == FetchPasteUrl(base, id2, c2)
    ensures id1 == id2 && c1 == c2
  {
    var u := FetchPasteUrl(base, id1, c1);
    ContentFlagAt(base, id1, c1);
    ContentFlagAt(base, id2, c2);
    assert |id1| == |id2|;
    var p := |base| + 8;
    assert u[p..p + |id1|] == id1;
    assert FetchPasteUrl(base, id2, c2)[p..p + |id2|] == id2;
  }

  /** What a response body turns out to be once `response.json()` has read
      it: JSON (seen either as a paste or as an error body), the JSON text
      `null`, or text that is not JSON, which makes `json()` throw a
      `SyntaxError`. */
  datatype JsonBody = Json(asPaste: Paste, asApiError: APIError) | JsonNull | NotJson(syntaxError: string)

  datatype Response = Response(status: int, body: JsonBody) {
    /** `response.ok`. */
    predicate Ok() {
      200 <= status <= 299
    }
  }

  /** What `fetch` settles to: a response, or a rejection, which carries a
      `TypeError` (or an `AbortError`), an `Error` with a message. */
  datatype Exchange = Answered(response: Response) | Rejected(message: string)

  /** The value of `await response.json()`. */
  function ReadJson(r: Response): Outcome<JsonBody> {
    match r.body
    case NotJson(m) => Threw(OtherError(m))
    case _ => Returned(r.body)
  }

  /** The TypeError V8 throws when `fromAPIError` reads `reason` of `null`. */
  const NullReasonMessage := "Cannot read properties of null (reading 'reason')"

  /** `throw PasteResponseError.fromAPIError(status, body)` for a body that
      was read: a `null` body makes reading its `reason` throw a TypeError,
      a timestamp that is no time value makes the constructor throw a
      RangeError, and otherwise the response error is thrown. */
  function ThrowAPIError<T>(status: int, body: JsonBody, format: int -> string): (o: Outcome<T>)
    requires !body.NotJson?
    ensures o.Threw?
    ensures o.thrown.Raised? <==> body.Json? && IsTimeValue(body.asApiError.timestamp)
    ensures o.thrown.Raised? ==> o.thrown.error == FromAPIError(status, body.asApiError, format)
    ensures body.JsonNull? ==> o.thrown == OtherError(NullReasonMessage)
    ensures body.Json? && !IsTimeValue(body.asApiError.timestamp) ==> o.thrown == OtherError(InvalidTimeMessage)
  {
    match body
    case JsonNull => Threw(OtherError(NullReasonMessage))
    case Json(_, apiError) =>
      match CallFromAPIError(status, apiError, format)
      case Returned(e) => Threw(Raised(e))
      case Threw(t) => Threw(t)
  }

  /** `fetchPaste(fetch, id, content)`. The body is read before the status
      is looked at, so a body that is not JSON throws whatever the status. */
  function FetchPaste(fetch: string -> Exchange, base: string, id: string, content: bool, format: int -> string): (o: Outcome<Option<Paste>>)
    ensures fetch(FetchPasteUrl(base, id, content)).Rejected? ==>
      o == Threw(OtherError(fetch(FetchPasteUrl(base, id, content)).message))
    ensures fetch(FetchPasteUrl(base, id, content)).Answered? ==>
      var r := fetch(FetchPasteUrl(base, id, content)).response;
      (r.body.NotJson? ==> o == Threw(OtherError(r.body.syntaxError)))
      && (r.body.Json? && r.Ok() ==> o == Returned(Some(r.body.asPaste)))
      && (r.body.JsonNull? && r.Ok() ==> o == Returned(None))
      && (!r.body.NotJson? && !r.Ok() && r.status == 404 ==> o == Returned(None))
      && (!r.body.NotJson? && !r.Ok() && r.status != 404 ==> o == ThrowAPIError(r.status, r.body, format))
    ensures o.Threw? && o.thrown.Raised? ==>
      o.thrown.error.PasteResponseError? && o.thrown.error.status != 404 && !(200 <= o.thrown.error.status <= 299)
  {
    match fetch(FetchPasteUrl(base, id, content))
    case Rejected(m) => Threw(OtherError(m))
    case Answered(r) =>
      match ReadJson(r)
      case Threw(t) => Threw(t)
      case Returned(payload) =>
        if r.Ok() then Returned(if payload.Json? then Some(payload.asPaste) else None)
        else if r.status == 404 then Returned(None)
        else ThrowAPIError(r.status, payload, format)
  }

  /** `fetchPaste` gives `null` exactly for a 404 answer in JSON and for an
      ok answer whose body is `null`: the caller cannot tell the two apart. */
  lemma FetchPasteNull(fetch: string -> Exchange, base: string, id: string, content: bool, format: int -> string)
    ensures var a := fetch(FetchPasteUrl(base, id, content));
      FetchPaste(fetch, base, id, content, format) == Returned(None) <==>
        a.Answered? && !a.response.body.NotJson?
        && ((a.response.Ok() && a.response.body.JsonNull?) || (!a.response.Ok() && a.response.status == 404))
  {
  }

  /** The optional settings of an upload; `None` is `undefined`. */
  datatype UploadPasteSettings = UploadPasteSettings(content: Option<bool>, expiry: Option<int>)

  /** One part of the multipart body: its field name, its text and the
      type given to its blob. */
  datatype FormPart = FormPart(name: string, content: string, mime: string)

  /** The MIME type a document is uploaded with: the first of
      `typeToMime(docType)` and `fileTypeToMime(docType)` that is not `null`, and
      the default MIME type when both are. */
  function PartMime(docType: string, typeToMime: string -> Option<string>, fileTypeToMime: string -> Option<string>): (m: string)
    ensures typeToMime(docType).Some? ==> m == typeToMime(docType).value
    ensures typeToMime(docType).None? && fileTypeToMime(docType).Some? ==> m == fileTypeToMime(docType).value
    ensures typeToMime(docType).None? && fileTypeToMime(docType).None? ==> m == Types.DefaultMime
  {
    match typeToMime(docType)
    case Some(m) => m
    case None =>
      match fileTypeToMime(docType)
      case Some(m) => m
      case None => Types.DefaultMime
  }

  /** `JSON.stringify({ expiry })`: the key is dropped when undefined. */
  function PayloadJson(expiry: Option<int>): (j: string)
    ensures expiry.None? ==> j == "{}"
    ensures expiry.Some? ==> j == "{\"expiry\":" + IntText(expiry.value) + "}"
  {
    match expiry
    case None => "{}"
    case Some(n) => "{\"expiry\":" + IntText(n) + "}"
  }

  /** Different expiries give different payloads. */
  lemma PayloadJsonInjective(a: Option<int>, b: Option<int>)
    requires PayloadJson(a) == PayloadJson(b)
    ensures a == b
  {
    assert a.Some? <==> |PayloadJson(a)| > 2;
    assert b.Some? <==> |PayloadJson(b)| > 2;
    if a.Some? && b.Some? {
      var ja, jb := PayloadJson(a), PayloadJson(b);
      assert ja[10..|ja| - 1] == IntText(a.value);
      assert jb[10..|jb| - 1] == IntText(b.value);
      IntTextInjective(a.value, b.value);
    }
  }

  /** The parts `uploadPaste` appends, in order: one "payload" part, then one
      part per document, named after the document and carrying its content. */
  function FormParts(documents: seq<Document>, expiry: Option<int>, typeToMime: string -> Option<string>, fileTypeToMime: string -> Option<string>): (parts: seq<FormPart>)
    ensures |parts| == 1 + |documents|
    ensures parts[0] == FormPart("payload", PayloadJson(expiry), "application/json")
    ensures forall i :: 0 <= i < |documents| ==>
      parts[i + 1].name == documents[i].name
      && parts[i + 1].content == documents[i].content
      && parts[i + 1].mime == PartMime(documents[i].type_, typeToMime, fileTypeToMime)
  {
    [FormPart("payload", PayloadJson(expiry), "application/json")]
      + seq(|documents|, i requires 0 <= i < |documents| =>
          FormPart(documents[i].name, documents[i].content, PartMime(documents[i].type_, typeToMime, fileTypeToMime)))
  }

  /** Appending a document appends its part. */
  lemma FormPartsAppend(documents: seq<Document>, doc: Document, expiry: Option<int>, typeToMime: string -> Option<string>, fileTypeToMime: string -> Option<string>)
    ensures FormParts(documents + [doc], expiry, typeToMime, fileTypeToMime)
      == FormParts(documents, expiry, typeToMime, fileTypeToMime) + [FormPart(doc.name, doc.content, PartMime(doc.type_, typeToMime, fileTypeToMime))]
  {
    var longer := documents + [doc];
    var lhs := FormParts(longer, expiry, typeToMime, fileTypeToMime);
    var rhs := FormParts(documents, expiry, typeToMime, fileTypeToMime) + [FormPart(doc.name, doc.content, PartMime(doc.type_, typeToMime, fileTypeToMime))];
    forall k | 0 <= k < |lhs| ensures lhs[k] == rhs[k] {
      if 0 < k <= |documents| {
        assert longer[k - 1] == documents[k - 1];
      }
    }
  }

  /** The query string of an upload. */
  function UploadQuery(settings: UploadPasteSettings): (q: string)
    ensures settings.content.None? <==> q == ""
    ensures settings.content.Some? ==> q == "?content=" + BoolText(settings.content.value)
  {
    match settings.content
    case None => ""
    case Some(c) => "?content=" + BoolText(c)
  }

  /** The upload address. */
  function UploadUrl(base: string, settings: UploadPasteSettings): (u: string)
    ensures StartsWith(u, base + "/pastes") && u[|base| + 7..] == UploadQuery(settings)
  {
    var u := base + "/pastes" + UploadQuery(settings);
    assert u[..|base| + 7] == base + "/pastes";
    u
  }

  /** The `catch` block of `uploadPaste`: a `PasteResponseError` is thrown
      again as it is; anything else becomes a plain `PasteError` carrying the
      message of the `Error`, or "Unknown Error" for a value that is not one. */
  function CatchPolicy(t: Thrown): (e: PasteError)
    ensures t.Raised? && t.error.PasteResponseError? ==> e == t.error
    ensures t.Raised? && !t.error.PasteResponseError? ==> e == PasteError(t.error.message)
    ensures t.OtherError? ==> e == PasteError(t.message)
    ensures t.NonError? ==> e == PasteError("Unknown Error")
    ensures !e.PasteUploadError?
  {
    match t
    case Raised(err) => if err.PasteResponseError? then err else NewPasteError(err.message)
    case OtherError(m) => NewPasteError(m)
    case NonError => NewPasteError("Unknown Error")
  }

  /** Nothing thrown a second time is changed again: the policy is
      idempotent on what it produces. */
  lemma CatchPolicyIdempotent(t: Thrown)
    ensures CatchPolicy(Raised(CatchPolicy(t))) == CatchPolicy(t)
  {
  }

  /** What the `try` block of `uploadPaste` settles to, given what the
      server answered: an ok response gives its body as the new paste (`null`
      when the body is `null`), any other throws as `ThrowAPIError` says; a
      rejection or unreadable body is thrown on. */
  function UploadAttempt(answer: Exchange, format: int -> string): (o: Outcome<Option<Paste>>)
    ensures answer.Rejected? ==> o == Threw(OtherError(answer.message))
    ensures answer.Answered? && answer.response.body.NotJson? ==>
      o == Threw(OtherError(answer.response.body.syntaxError))
    ensures answer.Answered? && !answer.response.body.NotJson? ==>
      var r := answer.response;
      (r.Ok() && r.body.Json? ==> o == Returned(Some(r.body.asPaste)))
      && (r.Ok() && r.body.JsonNull? ==> o == Returned(None))
      && (!r.Ok() ==> o == ThrowAPIError(r.status, r.body, format))
  {
    match answer
    case Rejected(m) => Threw(OtherError(m))
    case Answered(r) =>
      match ReadJson(r)
      case Threw(t) => Threw(t)
      case Returned(body) =>
        if r.Ok() then Returned(if body.Json? then Some(body.asPaste) else None)
        else ThrowAPIError(r.status, body, format)
  }

  /** The multipart body of an upload: the "payload" part, then, as the
      `forEach` over the documents does, one appended part per document. */
  method BuildForm(
    documents: seq<Document>,
    expiry: Option<int>,
    typeToMime: string -> Option<string>,
    fileTypeToMime: string -> Option<string>)
    returns (formData: seq<FormPart>)
    ensures formData == FormParts(documents, expiry, typeToMime, fileTypeToMime)
  {
    formData := [FormPart("payload", PayloadJson(expiry), "application/json")];
    var i := 0;
    while i < |documents|
      invariant 0 <= i <= |documents|
      invariant formData == FormParts(documents[..i], expiry, typeToMime, fileTypeToMime)
    {
      var doc := documents[i];
      var mime := Types.DefaultMime;
      var newMime := typeToMime(doc.type_);
      if newMime.None? {
        var fileMime := fileTypeToMime(doc.type_);
        if fileMime.Some? {
          mime := fileMime.value;
        }
      } else {
        mime := newMime.value;
      }
      assert mime == PartMime(doc.type_, typeToMime, fileTypeToMime);
      FormPartsAppend(documents[..i], doc, expiry, typeToMime, fileTypeToMime);
      assert documents[..i + 1] == documents[..i] + [doc];
      formData := formData + [FormPart(doc.name, doc.content, mime)];
      i := i + 1;
    }
    assert documents[..i] == documents;
  }

  /** `uploadPaste(documents, settings)`; `server` stands for the `POST`. A
      value the `try` block throws goes through the `catch` policy. */
  method UploadPaste(
    documents: seq<Document>,
    settings: UploadPasteSettings := UploadPasteSettings(None, None),
    base: string,
    typeToMime: string -> Option<string>,
    fileTypeToMime: string -> Option<string>,
    server: (string, seq<FormPart>) -> Exchange,
    format: int -> string)
    returns (o: Outcome<Option<Paste>>)
    ensures var attempt := UploadAttempt(server(UploadUrl(base, settings), FormParts(documents, settings.expiry, typeToMime, fileTypeToMime)), format);
      (attempt.Returned? ==> o == attempt)
      && (attempt.Threw? ==> o == Threw(Raised(CatchPolicy(attempt.thrown))))
  {
    var formData := BuildForm(documents, settings.expiry, typeToMime, fileTypeToMime);
    var query := "";
    if settings.content.Some? {
      query := "?content=" + BoolText(settings.content.value);
    }
    assert base + "/pastes" + query == UploadUrl(base, settings);
    var attempt := UploadAttempt(server(base + "/pastes" + query, formData), format);
    match attempt
    case Returned(p) => o := Returned(p);
    case Threw(t) => o := Threw(Raised(CatchPolicy(t)));
  }

  /** Whatever goes wrong, an upload throws a `PasteError` that is not a
      `PasteUploadError`, and a `PasteResponseError` only when the server
      answered with an error body in JSON whose timestamp is a time value,
      and a status that is not ok. */
  lemma UploadErrors(answer: Exchange, format: int -> string)
    ensures var attempt := UploadAttempt(answer, format);
      attempt.Threw? ==>
        var e := CatchPolicy(attempt.thrown);
        !e.PasteUploadError?
        && (e.PasteResponseError? <==>
              answer.Answered? && answer.response.body.Json? && !answer.response.Ok()
              && IsTimeValue(answer.response.body.asApiError.timestamp))
        && (e.PasteResponseError? ==> e.status == answer.response.status)
  {
  }
}
