/**
 * Request shaping for the OpenAI connector: rewriting a JSON request body
 * so that streaming is forced on or off (only for the two endpoints that
 * accept a `stream` parameter) with a default model filled in, and
 * trimming the chat-completions endpoint off a URL.
 *
 * JSON text is handled by an abstract pair `parse` / `stringify`, passed
 * in as functions: `parse` returns `None` where `JSON.parse` throws.
 */
module OpenAIUtils {
  import opened Wrappers
  import opened Records
  import opened JsonValues

  const OPENAI_CHAT_URL := "https://api.openai.com/v1/chat/completions"
  const OPENAI_LEGACY_COMPLETION_URL := "https://api.openai.com/v1/completions"

  /** `APIS_ALLOWING_STREAMING.has(url)`. */
  predicate AllowsStreaming(url: string)
  {
    url == OPENAI_CHAT_URL || url == OPENAI_LEGACY_COMPLETION_URL
  }

  const STREAM_OPTIONS: Json := JObject([("include_usage", JBool(true))])

  /** `jsonBody.model` is present and truthy. */
  predicate HasTruthyModel(fields: Record<Json>)
  {
    Get(fields, "model").Some? && Truthy(Get(fields, "model").value)
  }

  /**
   * How the in-place edits leave an object's fields: `stream` and
   * `stream_options` are written only for a streaming endpoint, `model` is
   * kept when truthy and defaulted otherwise, every other field is kept,
   * and existing keys keep their order (new keys go at the end).
   */
  ghost predicate FieldsRewritten(before: Record<Json>, after: Record<Json>, url: string, stream: bool, defaultModel: string)
  {
    && Get(after, "stream") == (if AllowsStreaming(url) then Some(JBool(stream)) else Get(before, "stream"))
    && Get(after, "stream_options")
       == (if AllowsStreaming(url) && stream then Some(STREAM_OPTIONS) else Get(before, "stream_options"))
    && Get(after, "model") == (if HasTruthyModel(before) then Get(before, "model") else Some(JString(defaultModel)))
    && (forall k :: k != "stream" && k != "stream_options" && k != "model" ==> Get(after, k) == Get(before, k))
    && Keys(before) <= Keys(after)
  }

  lemma AssignKeepsKeyOrder(r: Record<Json>, k: string, v: Json)
    ensures Keys(r) <= Keys(Assign(r, k, v))
  {
    if k !in Keys(r) {
      KeysAppend(r, (k, v));
    }
  }

  lemma {:induction false} KeysAppend(r: Record<Json>, e: (string, Json))
    ensures Keys(r + [e]) == Keys(r) + [e.0]
  {
    if |r| > 0 {
      assert (r + [e])[1..] == r[1..] + [e];
      KeysAppend(r[1..], e);
    }
  }

  /**
   * The three property writes on a parsed object: `stream` and
   * `stream_options` for a streaming endpoint, then `model` unless it is
   * already truthy.
   */
  function EditFields(fields: Record<Json>, url: string, stream: bool, defaultModel: string): (after: Record<Json>)
    ensures FieldsRewritten(fields, after, url, stream, defaultModel)
  {
    var f1 := if AllowsStreaming(url) then Assign(fields, "stream", JBool(stream)) else fields;
    var f2 := if AllowsStreaming(url) && stream then Assign(f1, "stream_options", STREAM_OPTIONS) else f1;
    AssignKeepsKeyOrder(fields, "stream", JBool(stream));
    AssignKeepsKeyOrder(f1, "stream_options", STREAM_OPTIONS);
    AssignKeepsKeyOrder(f2, "model", JString(defaultModel));
    if HasTruthyModel(f2) then f2 else Assign(f2, "model", JString(defaultModel))
  }

  /**
   * The outcome of the edits on an already parsed body: `Some` of the value
   * that gets serialised, or `None` when an edit throws. A falsy value is
   * left alone. Writing a property on a truthy number, string or `true`
   * throws a TypeError in strict-mode code; on an array the properties are
   * written but are not array elements, so serialisation does not show them.
   */
  function RewriteParsedBody(j: Json, url: string, stream: bool, defaultModel: string): (r: Option<Json>)
    ensures !Truthy(j) ==> r == Some(j)
    ensures j.JArray? ==> r == Some(j)
    ensures Truthy(j) && (j.JBool? || j.JNumber? || j.JString?) ==> r.None?
    ensures j.JObject? ==> r.Some? && r.value.JObject? && FieldsRewritten(j.fields, r.value.fields, url, stream, defaultModel)
  {
    if !Truthy(j) then Some(j)
    else match j
      case JObject(fields) => Some(JObject(EditFields(fields, url, stream, defaultModel)))
      case JArray(_) => Some(j)
      case _ => None
  }

  /** The edits never make a key appear twice. */
  lemma EditFieldsKeepsKeysUnique(fields: Record<Json>, url: string, stream: bool, defaultModel: string)
    requires UniqueKeys(fields)
    ensures UniqueKeys(EditFields(fields, url, stream, defaultModel))
  {
    var f1 := if AllowsStreaming(url) then Assign(fields, "stream", JBool(stream)) else fields;
    var f2 := if AllowsStreaming(url) && stream then Assign(f1, "stream_options", STREAM_OPTIONS) else f1;
    var f3 := if HasTruthyModel(f2) then f2 else Assign(f2, "model", JString(defaultModel));
    assert EditFields(fields, url, stream, defaultModel) == f3;
    AssignKeepsKeysUnique(fields, "stream", JBool(stream));
    AssignKeepsKeysUnique(f1, "stream_options", STREAM_OPTIONS);
    AssignKeepsKeysUnique(f2, "model", JString(defaultModel));
  }

  /** The rewritten object is still a well-formed object: no key occurs twice. */
  lemma RewriteKeepsKeysUnique(fields: Record<Json>, url: string, stream: bool, defaultModel: string)
    requires UniqueKeys(fields)
    ensures RewriteParsedBody(JObject(fields), url, stream, defaultModel).Some?
    ensures UniqueKeys(RewriteParsedBody(JObject(fields), url, stream, defaultModel).value.fields)
  {
    EditFieldsKeepsKeysUnique(fields, url, stream, defaultModel);
  }

  /** The string `getRequestWithStreamOption` returns, given what parsing produced. */
  function RequestBodyFor(parsed: Option<Json>, stringify: Json -> string, body: string,
                          url: string, stream: bool, defaultModel: string): string
  {
    match parsed
    case None => body
    case Some(j) =>
      match RewriteParsedBody(j, url, stream, defaultModel)
      case None => body
      case Some(j') => stringify(j')
  }

  /**
   * `getRequestWithStreamOption`: parse the body, edit the parsed object in
   * place, serialise it again; any exception gives back the body unchanged.
   */
  method GetRequestWithStreamOption(parse: string -> Option<Json>, stringify: Json -> string,
                                    url: string, body: string, stream: bool, defaultModel: string)
    returns (r: string)
    ensures parse(body).None? ==> r == body
    ensures parse(body).Some? && !Truthy(parse(body).value) ==> r == stringify(parse(body).value)
    ensures r == RequestBodyFor(parse(body), stringify, body, url, stream, defaultModel)
  {
    var parsed := parse(body);
    if parsed.None? {
      return body;
    }
    var jsonBody := parsed.value;
    if Truthy(jsonBody) {
      if jsonBody.JObject? {
        var fields := jsonBody.fields;
        if AllowsStreaming(url) {
          fields := Assign(fields, "stream", JBool(stream));
          if stream {
            fields := Assign(fields, "stream_options", STREAM_OPTIONS);
          }
        }
        if !HasTruthyModel(fields) {
          fields := Assign(fields, "model", JString(defaultModel));
        }
        jsonBody := JObject(fields);
      } else if !jsonBody.JArray? {
        return body;
      }
    }
    r := stringify(jsonBody);
  }

  /** `sanitizeRequest`: the same rewrite with streaming forced off. */
  method SanitizeRequest(parse: string -> Option<Json>, stringify: Json -> string,
                         url: string, body: string, defaultModel: string)
    returns (r: string)
    ensures r == RequestBodyFor(parse(body), stringify, body, url, false, defaultModel)
  {
    r := GetRequestWithStreamOption(parse, stringify, url, body, false, defaultModel);
  }

  /** Sanitising never adds `stream_options`, and writes `stream: false` only on a streaming endpoint. */
  lemma SanitizeNeverAddsStreamOptions(fields: Record<Json>, url: string, defaultModel: string)
    ensures RewriteParsedBody(JObject(fields), url, false, defaultModel).Some?
    ensures var after := RewriteParsedBody(JObject(fields), url, false, defaultModel).value.fields;
            && Get(after, "stream_options") == Get(fields, "stream_options")
            && Get(after, "stream") == (if AllowsStreaming(url) then Some(JBool(false)) else Get(fields, "stream"))
  {
  }

  /** The path the OpenAI client library appends itself. */
  const ENDPOINT := "/chat/completions"

  predicate EndsWith(s: string, suffix: string)
  {
    |suffix| <= |s| && s[|s| - |suffix|..] == suffix
  }

  /** The pattern `\/chat\/completions\/?$` matches the text starting at `i`. */
  predicate EndpointMatchesAt(url: string, i: nat)
  {
    i <= |url| && (url[i..] == ENDPOINT || url[i..] == ENDPOINT + "/")
  }

  /** `removeEndpointFromUrl`: drop `/chat/completions` (or `/chat/completions/`) at the very end. */
  function RemoveEndpointFromUrl(url: string): (r: string)
    ensures r <= url
    ensures url[|r|..] == "" || url[|r|..] == ENDPOINT || url[|r|..] == ENDPOINT + "/"
    ensures r == url <==> !(EndsWith(url, ENDPOINT) || EndsWith(url, ENDPOINT + "/"))
  {
    if EndsWith(url, ENDPOINT) then url[..|url| - |ENDPOINT|]
    else if EndsWith(url, ENDPOINT + "/") then url[..|url| - |ENDPOINT| - 1]
    else url
  }

  /**
   * Agreement with the regular-expression replacement: where the anchored
   * pattern matches (there is at most one place), everything from the
   * match on is removed; where it matches nowhere, the URL is unchanged.
   */
  lemma RemoveEndpointIsRegexReplace(url: string)
    ensures forall i :: 0 <= i <= |url| && EndpointMatchesAt(url, i) ==> RemoveEndpointFromUrl(url) == url[..i]
    ensures (forall i :: 0 <= i <= |url| ==> !EndpointMatchesAt(url, i)) ==> RemoveEndpointFromUrl(url) == url
  {
    forall i | 0 <= i <= |url| && EndpointMatchesAt(url, i) ensures RemoveEndpointFromUrl(url) == url[..i] {
      if url[i..] == ENDPOINT {
        assert EndsWith(url, ENDPOINT);
      } else {
        assert url[|url| - 1] == '/';
        assert !EndsWith(url, ENDPOINT) by {
          assert ENDPOINT[|ENDPOINT| - 1] == 's';
        }
        assert EndsWith(url, ENDPOINT + "/");
      }
    }
    if EndsWith(url, ENDPOINT) {
      assert EndpointMatchesAt(url, |url| - |ENDPOINT|);
    } else if EndsWith(url, ENDPOINT + "/") {
      assert EndpointMatchesAt(url, |url| - |ENDPOINT| - 1);
    }
  }

}
