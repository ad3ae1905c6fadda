/** The request helper of the real client (src/api/realApi.js): the headers it
    sends, the stored value it reads for them, and how it turns a response
    into a returned body or a thrown error. `fetch` itself is not modelled:
    the response is a parameter. */
module Gateway {
  import opened Base
  import opened Entities

  /** A parsed JSON value, reduced to what the helper inspects: an object's
      `message` and `error` fields (`""` when absent or falsy), `null`, or any
      other value (number, string, boolean, array). */
  datatype JsonValue = JNull | JObject(message: string, error: string) | JOther

  /** A response as the helper sees it. `json` is the result of `JSON.parse`
      on `text`: `None` when the text is not JSON. */
  datatype HttpResponse = HttpResponse(
    status: int,
    statusText: string,
    contentType: Option<string>,
    text: string,
    json: Option<JsonValue>)

  /** What a successful call resolves to: `{}`, the raw text, or parsed JSON. */
  datatype Body = EmptyObject | Text(text: string) | Json(value: JsonValue)

  /** How a call ends: it resolves to a body, it throws `Error(message)`, or
      `response.json()` rejects because the body is not JSON. */
  datatype Outcome = Returned(body: Body) | Thrown(message: string) | BadJson

  const JsonContentType: string := "application/json"
  const ObjectText: string := "[object Object]"

  /** `response.ok`. */
  predicate IsOk(r: HttpResponse) {
    200 <= r.status <= 299
  }

  /** The content type announces JSON. */
  predicate IsJsonContent(contentType: Option<string>) {
    contentType.Some? && Contains(contentType.value, JsonContentType)
  }

  function StatusMessage(status: int): (m: string)
    ensures |m| > 5 && m[..5] == "HTTP "
  {
    "HTTP " + IntToString(status)
  }

  /** The text after `HTTP ` is the status in decimal. */
  lemma StatusMessageReads(status: nat)
    ensures AllDigits(StatusMessage(status)[5..])
    ensures DigitsValue(StatusMessage(status)[5..]) == status
  {
    var m := StatusMessage(status);
    assert m[5..] == NatToString(status);
    DigitsValueOfNatToString(status);
  }

  function BearerValue(token: string): string {
    "Bearer " + token
  }

  // ---------------------------------------------------------------- headers

  /** `getToken` as written: it returns the parsed stored record itself, so
      the text interpolated into the header is that of an object. */
  function GetTokenAsWritten(stored: Option<AuthRecord>): (t: Option<string>)
    ensures t.Some? <==> stored.Some?
    ensures t.Some? ==> t.value == ObjectText
  {
    if stored.Some? then Some(ObjectText) else None
  }

  /** `getToken` corrected: the token held by the stored record, when there is
      a record and its token is non-empty. */
  function GetToken(stored: Option<AuthRecord>): (t: Option<string>)
    ensures t.Some? <==> stored.Some? && stored.value.token != ""
    ensures t.Some? ==> t.value == stored.value.token && t.value != ""
  {
    if stored.Some? && stored.value.token != "" then Some(stored.value.token) else None
  }

  /** Whatever token is stored, the as-written header carries the same text,
      which is never `"Bearer " + token` for a real token. */
  lemma AsWrittenHeaderLosesToken(rec: AuthRecord)
    requires rec.token != ObjectText
    ensures GetTokenAsWritten(Some(rec)) == Some(ObjectText)
    ensures BearerValue(GetTokenAsWritten(Some(rec)).value) != BearerValue(rec.token)
  {
    assert BearerValue(ObjectText)[7..] == ObjectText;
    assert BearerValue(rec.token)[7..] == rec.token;
  }

  /** The concrete case: a session stored with token `"abc"` sends
      `Bearer [object Object]`, the corrected reader sends `Bearer abc`. */
  lemma StoredSessionHeader()
    ensures var rec := AuthRecord("u1", "alice", "abc", None);
      && BearerValue(GetTokenAsWritten(Some(rec)).value) == "Bearer [object Object]"
      && BearerValue(GetToken(Some(rec)).value) == "Bearer abc"
  {
  }

  /** The headers sent for caller headers `caller` and token `token`: the
      JSON content type unless the caller overrides it, every caller header,
      and `Authorization: Bearer <token>` exactly when there is a token (it
      overrides a caller's own `Authorization`). */
  predicate HeadersFor(caller: map<string, string>, token: Option<string>, headers: map<string, string>) {
    && headers.Keys == caller.Keys + {"Content-Type"} + (if token.Some? then {"Authorization"} else {})
    && headers["Content-Type"] == (if "Content-Type" in caller then caller["Content-Type"] else JsonContentType)
    && (forall h :: h in caller && h != "Authorization" ==> headers[h] == caller[h])
    && (token.Some? ==> headers["Authorization"] == BearerValue(token.value))
    && (token.None? && "Authorization" in caller ==> headers["Authorization"] == caller["Authorization"])
  }

  /** The header object of `apiRequest`, built the way the source builds it. */
  method BuildHeaders(caller: map<string, string>, token: Option<string>) returns (headers: map<string, string>)
    ensures HeadersFor(caller, token, headers)
    ensures "Authorization" in headers <==> token.Some? || "Authorization" in caller
  {
    headers := map["Content-Type" := JsonContentType] + caller;
    if token.Some? {
      headers := headers["Authorization" := BearerValue(token.value)];
    }
  }

  // ---------------------------------------------------------------- responses

  /** The message thrown for a non-2xx response: the JSON `message`, else the
      JSON `error`, else `HTTP <status>`; when the text is not JSON (or is
      `null`, whose field access throws inside the `try`), the text itself,
      else `HTTP <status>`. */
  function FailureMessage(status: int, text: string, json: Option<JsonValue>): (m: string)
    ensures m != ""
    ensures json.Some? && json.value.JObject? && json.value.message != "" ==> m == json.value.message
    ensures json.Some? && json.value.JObject? && json.value.message == "" && json.value.error != "" ==> m == json.value.error
    ensures json.Some? && json.value.JObject? && json.value.message == "" && json.value.error == "" ==> m == StatusMessage(status)
    ensures json == Some(JOther) ==> m == StatusMessage(status)
    ensures (json.None? || json == Some(JNull)) ==> m == (if text != "" then text else StatusMessage(status))
  {
    match json
    case Some(JObject(message, error)) =>
      if message != "" then message else if error != "" then error else StatusMessage(status)
    case Some(JOther) => StatusMessage(status)
    case _ => if text != "" then text else StatusMessage(status)
  }

  /** What a 2xx response resolves to. */
  function SuccessOutcome(r: HttpResponse): (o: Outcome)
    ensures !o.Thrown?
    ensures o.BadJson? <==> IsJsonContent(r.contentType) && r.json.None?
    ensures IsJsonContent(r.contentType) && r.json.Some? ==> o == Returned(Json(r.json.value))
    ensures !IsJsonContent(r.contentType) ==>
      (o == Returned(EmptyObject) <==> r.status == 204 || r.statusText == "No Content" || r.text == "")
    ensures !IsJsonContent(r.contentType) && o != Returned(EmptyObject) ==> o == Returned(Text(r.text)) && r.text != ""
  {
    if !IsJsonContent(r.contentType) then
      if r.status == 204 || r.statusText == "No Content" then Returned(EmptyObject)
      else if r.text != "" then Returned(Text(r.text))
      else Returned(EmptyObject)
    else if r.json.Some? then Returned(Json(r.json.value))
    else BadJson
  }

  /** `apiRequest`: build the headers from the stored session, then settle the
      response. */
  method ApiRequest(caller: map<string, string>, stored: Option<AuthRecord>, r: HttpResponse)
    returns (sent: map<string, string>, outcome: Outcome)
    ensures HeadersFor(caller, GetToken(stored), sent)
    ensures !IsOk(r) ==> outcome == Thrown(FailureMessage(r.status, r.text, r.json))
    ensures IsOk(r) ==> outcome == SuccessOutcome(r)
  {
    var token := GetToken(stored);
    sent := BuildHeaders(caller, token);
    if !IsOk(r) {
      var errorMessage := StatusMessage(r.status);
      match r.json {
        case Some(JObject(message, error)) =>
          errorMessage := if message != "" then message else if error != "" then error else errorMessage;
        case Some(JOther) =>
        case _ =>
          errorMessage := if r.text != "" then r.text else errorMessage;
      }
      outcome := Thrown(errorMessage);
      return;
    }
    if !IsJsonContent(r.contentType) {
      if r.status == 204 || r.statusText == "No Content" {
        outcome := Returned(EmptyObject);
        return;
      }
      outcome := if r.text != "" then Returned(Text(r.text)) else Returned(EmptyObject);
      return;
    }
    outcome := if r.json.Some? then Returned(Json(r.json.value)) else BadJson;
  }
}
