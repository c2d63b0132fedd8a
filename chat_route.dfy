/**
 * The chat API route: request validation and history shaping in `POST`,
 * system-prompt selection and result extraction in `generateAIResponse`,
 * and the fallback of `enhancePrompt`. The Groq replies are inputs.
 */
module ChatRoute {
  import opened Wrappers
  import opened JsStrings

  /** A value parsed from JSON. Numbers are integers here. */
  datatype Json =
    | JNull
    | JBool(b: bool)
    | JNumber(n: int)
    | JString(s: string)
    | JArray(elems: seq<Json>)
    | JObject(fields: map<string, Json>)

  /** JavaScript truthiness of a value; `None` is `undefined`. */
  predicate Truthy(v: Option<Json>) {
    match v
    case None => false
    case Some(JNull) => false
    case Some(JBool(b)) => b
    case Some(JNumber(n)) => n != 0
    case Some(JString(s)) => s != ""
    case Some(_) => true
  }

  /** A canonical array index: decimal digits without a leading zero. */
  predicate IsIndexKey(key: string) {
    |key| >= 1 && (forall i :: 0 <= i < |key| ==> IsDigit(key[i])) && (key[0] != '0' || |key| == 1)
  }

  /** Reading an own property `v[key]` of a non-nullish value: object
      fields and array elements; anything else reads as `undefined`. */
  function Get(v: Json, key: string): (r: Option<Json>)
    ensures v.JObject? ==> (r.Some? <==> key in v.fields)
    ensures v.JObject? && key in v.fields ==> r == Some(v.fields[key])
    ensures v.JArray? ==> (r.Some? <==> IsIndexKey(key) && DecimalValue(key) < |v.elems|)
    ensures v.JArray? && r.Some? ==> r == Some(v.elems[DecimalValue(key)])
    ensures !v.JObject? && !v.JArray? ==> r.None?
  {
    match v
    case JObject(fields) => if key in fields then Some(fields[key]) else None
    case JArray(elems) =>
      if IsIndexKey(key) && DecimalValue(key) < |elems| then Some(elems[DecimalValue(key)]) else None
    case _ => None
  }

  /** Element `i` of an array is read by the key `String(i)`, and reading
      past the end gives `undefined`. */
  lemma GetIndex(elems: seq<Json>, i: nat)
    ensures i < |elems| ==> Get(JArray(elems), NatToDecimal(i)) == Some(elems[i])
    ensures i >= |elems| ==> Get(JArray(elems), NatToDecimal(i)) == None
  {
    var key := NatToDecimal(i);
    assert IsIndexKey(key);
  }

  /** `v?.key`: `undefined` when `v` is `null` or `undefined`. */
  function OptGet(v: Option<Json>, key: string): (r: Option<Json>)
    ensures v.None? || v == Some(JNull) ==> r.None?
  {
    if v.None? || v == Some(JNull) then None else Get(v.value, key)
  }

  /** The `TypeError` message for reading `key` from `null` or `undefined`. */
  function NullishRead(v: Option<Json>, key: string): string {
    "Cannot read properties of " + (if v.None? then "undefined" else "null") + " (reading '" + key + "')"
  }

  /** The `TypeError` raised when an object cannot be converted to a string. */
  const NotPrimitive: string := "Cannot convert object to primitive value"

  /** Converting `v` to a string throws: an object whose own `toString`
      field (never callable in JSON) hides the inherited method, since
      `valueOf` then gives back the object; or an array holding such a
      value, since `join` converts every element. */
  predicate Unconvertible(v: Json)
    decreases v
  {
    match v
    case JObject(fields) => "toString" in fields
    case JArray(elems) => exists i :: 0 <= i < |elems| && Unconvertible(elems[i])
    case _ => false
  }

  /** `String(v)`, as a template literal or a property key converts it, or
      the `TypeError` it throws. */
  function ToJsString(v: Json): (r: Result<string, string>)
    ensures r.Err? <==> Unconvertible(v)
    ensures r.Err? ==> r.error == NotPrimitive
    ensures v.JString? ==> r == Ok(v.s)
    ensures v.JObject? && r.Ok? ==> r.value == "[object Object]"
    decreases v, 0
  {
    match v
    case JNull => Ok("null")
    case JBool(b) => Ok(if b then "true" else "false")
    case JNumber(n) => Ok(if n < 0 then "-" + NatToDecimal(-n) else NatToDecimal(n))
    case JString(t) => Ok(t)
    case JArray(elems) =>
      if exists i :: 0 <= i < |elems| && Unconvertible(elems[i]) then Err(NotPrimitive)
      else Ok(Join(seq(|elems|, i requires 0 <= i < |elems| => ElementString(elems[i])), ","))
    case JObject(fields) => if "toString" in fields then Err(NotPrimitive) else Ok("[object Object]")
  }

  /** An array element as `Array.prototype.join` renders it. */
  function ElementString(v: Json): string
    requires !Unconvertible(v)
    decreases v, 1
  {
    if v.JNull? then "" else ToJsString(v).value
  }

  // ---------------------------------------------------------------- prompts

  /** The four prompts `generateAIResponse` defines. */
  datatype Mode = ChatMode | ReviewMode | FixMode | OptimizeMode

  /** The system prompt chosen: one of the four, or a member every object
      literal inherits (truthy, so it is used as is). */
  datatype Prompt = Named(mode: Mode) | Inherited(key: string)

  /** The names `Object.prototype` provides to the prompt table. */
  const ObjectPrototypeKeys: set<string> := {
    "constructor", "hasOwnProperty", "isPrototypeOf", "propertyIsEnumerable",
    "toLocaleString", "toString", "valueOf", "__proto__",
    "__defineGetter__", "__defineSetter__", "__lookupGetter__", "__lookupSetter__"
  }

  const PromptKeys: set<string> := {"chat", "review", "fix", "optimize"}

  /** The property key `mode` becomes: `undefined` turns into "undefined";
      a value that cannot be converted throws. */
  function ModeKey(mode: Option<Json>): (r: Result<string, string>)
    ensures r.Err? <==> mode.Some? && Unconvertible(mode.value)
  {
    if mode.None? then Ok("undefined") else ToJsString(mode.value)
  }

  /** `systemPrompts[mode] || systemPrompts.chat`, or the `TypeError` that
      converting `mode` to a key throws. */
  function SystemPrompt(mode: Option<Json>): (r: Result<Prompt, string>)
    ensures r.Err? <==> mode.Some? && Unconvertible(mode.value)
    ensures r.Err? ==> r.error == NotPrimitive
    ensures ModeKey(mode) == Ok("review") <==> r == Ok(Named(ReviewMode))
    ensures ModeKey(mode) == Ok("fix") <==> r == Ok(Named(FixMode))
    ensures ModeKey(mode) == Ok("optimize") <==> r == Ok(Named(OptimizeMode))
    ensures r == Ok(Named(ChatMode)) <==>
      ModeKey(mode).Ok? && ModeKey(mode).value !in PromptKeys - {"chat"} && ModeKey(mode).value !in ObjectPrototypeKeys
    ensures r.Ok? && r.value.Inherited? <==> ModeKey(mode).Ok? && ModeKey(mode).value in ObjectPrototypeKeys
  {
    match ModeKey(mode)
    case Err(e) => Err(e)
    case Ok(key) =>
      if key == "review" then Ok(Named(ReviewMode))
      else if key == "fix" then Ok(Named(FixMode))
      else if key == "optimize" then Ok(Named(OptimizeMode))
      else if key in ObjectPrototypeKeys then Ok(Inherited(key))
      else Ok(Named(ChatMode))
  }

  /** A missing mode, and any string that names no prompt, fall back to chat;
      a one-element array converts to its element's key. */
  lemma SystemPromptExamples(name: string)
    requires name !in PromptKeys && name !in ObjectPrototypeKeys
    ensures SystemPrompt(None) == Ok(Named(ChatMode))
    ensures SystemPrompt(Some(JString(name))) == Ok(Named(ChatMode))
    ensures SystemPrompt(Some(JNull)) == Ok(Named(ChatMode))
    ensures SystemPrompt(Some(JArray([JString("fix")]))) == Ok(Named(FixMode))
    ensures SystemPrompt(Some(JObject(map["toString" := JNumber(1)]))) == Err(NotPrimitive)
  {
    assert "undefined" !in ObjectPrototypeKeys && "null" !in ObjectPrototypeKeys;
    var one := seq(1, i requires 0 <= i < 1 => ElementString([JString("fix")][i]));
    assert one == ["fix"];
    assert Join(one, ",") == "fix";
  }

  // ---------------------------------------------------------------- history

  /** The history filter: a truthy object whose `role` and `content` are
      strings and whose role is "user" or "assistant". */
  predicate IsValidEntry(v: Json) {
    (v.JObject? || v.JArray?)
    && Get(v, "role").Some? && Get(v, "role").value.JString?
    && Get(v, "content").Some? && Get(v, "content").value.JString?
    && Get(v, "role").value.s in ["user", "assistant"]
  }

  /** `Array.isArray(history) ? history.filter(...) : []`, entries kept as they are. */
  function ValidHistory(history: Option<Json>): (kept: seq<Json>)
    ensures history.None? || !history.value.JArray? ==> kept == []
    ensures history.Some? && history.value.JArray? ==> kept == KeepValid(history.value.elems)
  {
    if history.Some? && history.value.JArray? then KeepValid(history.value.elems) else []
  }

  function KeepValid(entries: seq<Json>): (kept: seq<Json>)
    ensures |kept| <= |entries|
    ensures forall x :: x in kept <==> x in entries && IsValidEntry(x)
  {
    if entries == [] then []
    else (if IsValidEntry(entries[0]) then [entries[0]] else []) + KeepValid(entries[1..])
  }

  /** The filter distributes over concatenation, so relative order is kept. */
  lemma {:induction false} KeepValidAppend(a: seq<Json>, b: seq<Json>)
    ensures KeepValid(a + b) == KeepValid(a) + KeepValid(b)
    decreases |a|
  {
    if a == [] {
      assert a + b == b;
    } else {
      assert (a + b)[1..] == a[1..] + b;
      KeepValidAppend(a[1..], b);
    }
  }

  /** A history whose every entry is valid is kept whole, and filtering twice
      is filtering once. */
  lemma {:induction false} KeepValidWhole(entries: seq<Json>)
    ensures (forall x :: x in entries ==> IsValidEntry(x)) ==> KeepValid(entries) == entries
    ensures KeepValid(KeepValid(entries)) == KeepValid(entries)
    decreases |entries|
  {
    if entries != [] {
      KeepValidWhole(entries[1..]);
      var rest := KeepValid(entries[1..]);
      var head := if IsValidEntry(entries[0]) then [entries[0]] else [];
      KeepValidAppend(head, rest);
      assert KeepValid(head) == head by {
        if head != [] {
          assert head[1..] == [];
        }
      }
    }
  }

  /** `s.slice(-n)` for a positive `n`. */
  function LastN(s: seq<Json>, n: nat): (r: seq<Json>)
    requires n > 0
    ensures |r| == if |s| < n then |s| else n
    ensures r == s[|s| - |r|..]
  {
    if |s| <= n then s else s[|s| - n..]
  }

  /** The new user turn `{ role: "user", content: message }`. */
  function UserMessage(message: string): Json {
    JObject(map["role" := JString("user"), "content" := JString(message)])
  }

  /** The conversation sent to the model: the last ten kept entries, then the new message. */
  function Conversation(history: Option<Json>, message: string): (messages: seq<Json>)
    ensures 1 <= |messages| <= 11
    ensures messages[|messages| - 1] == UserMessage(message)
    ensures messages[..|messages| - 1] == LastN(ValidHistory(history), 10)
    ensures forall i :: 0 <= i < |messages| - 1 ==> IsValidEntry(messages[i])
  {
    var recent := LastN(ValidHistory(history), 10);
    assert forall x :: x in recent ==> x in ValidHistory(history);
    recent + [UserMessage(message)]
  }

  // ------------------------------------------------------------- Groq calls

  /** A settled `fetch` to Groq: its status and the outcome of `response.json()`. */
  datatype GroqReply = GroqReply(ok: bool, status: nat, statusText: string, body: Result<Json, string>)

  /** What `generateAIResponse` returns. */
  datatype AiResult = AiResult(response: string, tokens: Json, model: string)

  const MissingKey: string := "GROQ_API_KEY is not set in environment variables"

  /** `!process.env.GROQ_API_KEY`. */
  predicate KeyMissing(key: Option<string>) {
    key.None? || key.value == ""
  }

  /** `errorData.error?.message`, where `errorData` is the reply's JSON, or
      `{}` when it could not be read. */
  function ErrorDetail(body: Result<Json, string>): Option<Json> {
    if body.Ok? then OptGet(OptGet(Some(body.value), "error"), "message") else None
  }

  /** The start of the message thrown on a non-ok Groq reply. */
  function GroqErrorPrefix(status: nat): string {
    "Groq API error: " + NatToDecimal(status) + " - "
  }

  /** The message thrown on a non-ok Groq reply: a JSON `null` body makes
      reading `error` throw a `TypeError`; otherwise the status, then the
      error's message when it is truthy, else the status text. An error
      message that cannot be converted makes the template itself throw. */
  function GroqErrorMessage(reply: GroqReply): (m: string)
    ensures reply.body == Ok(JNull) ==> m == NullishRead(Some(JNull), "error")
    ensures reply.body != Ok(JNull) && Truthy(ErrorDetail(reply.body)) && Unconvertible(ErrorDetail(reply.body).value) ==>
      m == NotPrimitive
    ensures reply.body != Ok(JNull) && Truthy(ErrorDetail(reply.body)) && !Unconvertible(ErrorDetail(reply.body).value) ==>
      m == GroqErrorPrefix(reply.status) + ToJsString(ErrorDetail(reply.body).value).value
    ensures reply.body != Ok(JNull) && !Truthy(ErrorDetail(reply.body)) ==>
      m == GroqErrorPrefix(reply.status) + reply.statusText
  {
    if reply.body == Ok(JNull) then NullishRead(Some(JNull), "error")
    else
      var detail := if Truthy(ErrorDetail(reply.body)) then ErrorDetail(reply.body).value else JString(reply.statusText);
      match ToJsString(detail)
      case Err(e) => e
      case Ok(text) => GroqErrorPrefix(reply.status) + text
  }

  /** A Groq error object's message is reported; an unreadable body falls
      back to the status text; a message object with its own `toString`
      field makes the conversion throw instead. */
  lemma GroqErrorExamples(status: nat, statusText: string, message: string, reason: string)
    requires message != ""
    ensures GroqErrorMessage(GroqReply(false, status, statusText,
      Ok(JObject(map["error" := JObject(map["message" := JString(message)])])))) == GroqErrorPrefix(status) + message
    ensures GroqErrorMessage(GroqReply(false, status, statusText, Err(reason))) == GroqErrorPrefix(status) + statusText
    ensures GroqErrorMessage(GroqReply(false, status, statusText,
      Ok(JObject(map["error" := JObject(map["message" := JObject(map["toString" := JNumber(1)])])])))) == NotPrimitive
  {
    var body := JObject(map["error" := JObject(map["message" := JString(message)])]);
    assert ErrorDetail(Ok(body)) == Some(JString(message));
    var hidden := JObject(map["toString" := JNumber(1)]);
    var bad := JObject(map["error" := JObject(map["message" := hidden])]);
    assert ErrorDetail(Ok(bad)) == Some(hidden);
  }

  /** `data.choices` can be indexed: `data` is not null and `choices` is
      neither null nor missing (otherwise `data.choices[0]` throws). */
  predicate ChoicesReadable(data: Json) {
    !data.JNull? && OptGet(Some(data), "choices").Some? && OptGet(Some(data), "choices") != Some(JNull)
  }

  /** `data.choices[0]?.message?.content`: `None` when it is `undefined`,
      and also when reading `choices[0]` throws. */
  function FirstContent(data: Json): (c: Option<Json>)
    ensures c.Some? ==> ChoicesReadable(data)
    ensures !(data.JObject? || data.JArray?) ==> c.None?
  {
    if !ChoicesReadable(data) then None
    else OptGet(OptGet(Get(OptGet(Some(data), "choices").value, "0"), "message"), "content")
  }

  /** `data.usage?.total_tokens`. */
  function TotalTokens(data: Json): Option<Json> {
    OptGet(OptGet(Some(data), "usage"), "total_tokens")
  }

  /** The text and token count read from a successful reply's JSON: the
      first choice's content trimmed ("" when it is falsy) and the total
      token count (0 when it is falsy). Reading fails when `choices` cannot
      be indexed, and when the content is truthy but not a string. */
  function ReadCompletion(data: Json): (r: Result<AiResult, string>)
    ensures data.JNull? ==> r == Err(NullishRead(Some(JNull), "choices"))
    ensures !data.JNull? && !ChoicesReadable(data) ==> r == Err(NullishRead(OptGet(Some(data), "choices"), "0"))
    ensures r.Ok? <==> ChoicesReadable(data) && (!Truthy(FirstContent(data)) || FirstContent(data).value.JString?)
    ensures ChoicesReadable(data) && Truthy(FirstContent(data)) && !FirstContent(data).value.JString? ==>
      r == Err("aiResponse.trim is not a function")
    ensures r.Ok? && Truthy(FirstContent(data)) ==> r.value.response == Trim(FirstContent(data).value.s)
    ensures r.Ok? && !Truthy(FirstContent(data)) ==> r.value.response == ""
    ensures r.Ok? ==> r.value.tokens == if Truthy(TotalTokens(data)) then TotalTokens(data).value else JNumber(0)
    ensures r.Ok? ==> r.value.model == "Llama 3.3 70B" && Trim(r.value.response) == r.value.response
  {
    if data.JNull? then Err(NullishRead(Some(JNull), "choices"))
    else if !ChoicesReadable(data) then Err(NullishRead(OptGet(Some(data), "choices"), "0"))
    else
      var content := FirstContent(data);
      var aiResponse := if Truthy(content) then content.value else JString("");
      var total := TotalTokens(data);
      var tokens := if Truthy(total) then total.value else JNumber(0);
      if aiResponse.JString? then
        TrimIdempotent(aiResponse.s);
        assert Trim("") == "" by { TrimAllWhitespace(""); }
        Ok(AiResult(Trim(aiResponse.s), tokens, "Llama 3.3 70B"))
      else Err("aiResponse.trim is not a function")
  }

  /** A reply shaped as the chat-completions API sends it: one choice whose
      message has `text` as content, and `n` total tokens. */
  function ApiReply(text: string, n: int): Json {
    JObject(map[
      "choices" := JArray([JObject(map["message" := JObject(map["content" := JString(text)])])]),
      "usage" := JObject(map["total_tokens" := JNumber(n)])])
  }

  /** The content of such a reply is its text. */
  lemma FirstContentOfReply(text: string, n: int)
    ensures ChoicesReadable(ApiReply(text, n))
    ensures FirstContent(ApiReply(text, n)) == Some(JString(text))
  {
    var message := JObject(map["content" := JString(text)]);
    var choice := JObject(map["message" := message]);
    var data := ApiReply(text, n);
    assert OptGet(Some(data), "choices") == Some(JArray([choice]));
    assert Get(JArray([choice]), "0") == Some(choice) by {
      GetIndex([choice], 0);
    }
  }

  /** The text read from a reply whose first content is the string `text`. */
  lemma ReadCompletionText(data: Json, text: string)
    requires ChoicesReadable(data) && FirstContent(data) == Some(JString(text))
    ensures ReadCompletion(data).Ok? && ReadCompletion(data).value.response == Trim(text)
  {
    if text == "" {
      TrimAllWhitespace(text);
    }
  }

  /** The token count read from a readable reply whose total is `n`. */
  lemma ReadCompletionTokens(data: Json, n: int)
    requires ReadCompletion(data).Ok? && TotalTokens(data) == Some(JNumber(n))
    ensures ReadCompletion(data).value.tokens == JNumber(n)
  {
    if n == 0 {
      assert !Truthy(TotalTokens(data));
    } else {
      assert Truthy(TotalTokens(data));
    }
  }

  /** A reply whose first content is the string `text` and whose total
      token count is `n` reads as `text` trimmed with `n` tokens. */
  lemma ReadCompletionOfContent(data: Json, text: string, n: int)
    requires ChoicesReadable(data)
    requires FirstContent(data) == Some(JString(text)) && TotalTokens(data) == Some(JNumber(n))
    ensures ReadCompletion(data) == Ok(AiResult(Trim(text), JNumber(n), "Llama 3.3 70B"))
  {
    ReadCompletionText(data, text);
    ReadCompletionTokens(data, n);
  }

  /** Reading such a reply gives its text trimmed and its token count. */
  lemma ReadCompletionOfReply(text: string, n: int)
    ensures ReadCompletion(ApiReply(text, n)) == Ok(AiResult(Trim(text), JNumber(n), "Llama 3.3 70B"))
  {
    var data := ApiReply(text, n);
    var usage := JObject(map["total_tokens" := JNumber(n)]);
    assert TotalTokens(data) == Some(JNumber(n)) by {
      assert "usage" in data.fields && data.fields["usage"] == usage;
      assert OptGet(Some(data), "usage") == Some(usage);
    }
    FirstContentOfReply(text, n);
    ReadCompletionOfContent(data, text, n);
  }

  /**
   * `generateAIResponse(messages, mode)` once its fetch has settled
   * (`fetched` is the reply or the rejection's message). Looking up the
   * system prompt comes first, outside the `try`, so a `mode` that cannot
   * be converted fails before the key is checked. The request it makes is
   * `GroqMessages`.
   */
  function GenerateAIResponse(mode: Option<Json>, key: Option<string>, fetched: Result<GroqReply, string>)
    : (r: Result<AiResult, string>)
    ensures SystemPrompt(mode).Err? ==> r == Err(NotPrimitive)
    ensures SystemPrompt(mode).Ok? && KeyMissing(key) ==> r == Err(MissingKey)
    ensures SystemPrompt(mode).Ok? && !KeyMissing(key) && fetched.Err? ==> r == Err(fetched.error)
    ensures SystemPrompt(mode).Ok? && !KeyMissing(key) && fetched.Ok? && !fetched.value.ok ==>
      r == Err(GroqErrorMessage(fetched.value))
    ensures SystemPrompt(mode).Ok? && !KeyMissing(key) && fetched.Ok? && !fetched.value.ok && fetched.value.body == Ok(JNull) ==>
      r == Err(NullishRead(Some(JNull), "error"))
    ensures SystemPrompt(mode).Ok? && !KeyMissing(key) && fetched.Ok? && fetched.value.ok && fetched.value.body.Err? ==>
      r == Err(fetched.value.body.error)
    ensures r.Ok? ==> SystemPrompt(mode).Ok? && !KeyMissing(key) && fetched.Ok? && fetched.value.ok && fetched.value.body.Ok?
    ensures r.Ok? ==> r == ReadCompletion(fetched.value.body.value)
  {
    if SystemPrompt(mode).Err? then Err(SystemPrompt(mode).error)
    else if KeyMissing(key) then Err(MissingKey)
    else if fetched.Err? then Err(fetched.error)
    else if !fetched.value.ok then Err(GroqErrorMessage(fetched.value))
    else if fetched.value.body.Err? then Err(fetched.value.body.error)
    else ReadCompletion(fetched.value.body.value)
  }

  /** The `messages` of the chat request: the system prompt, then the conversation. */
  datatype ChatRequest = ChatRequest(system: Prompt, messages: seq<Json>)

  /**
   * `enhancePrompt(body)`. Building the instruction text comes first,
   * outside the `try`: a prompt that cannot be converted throws there.
   * Every later failure, including a missing key, a failed or non-ok reply
   * and an unreadable or non-string content, is caught and yields
   * `body.prompt`.
   */
  function EnhancePrompt(prompt: Option<Json>, key: Option<string>, fetched: Result<GroqReply, string>)
    : (r: Result<Option<Json>, string>)
    ensures r.Err? <==> prompt.Some? && Unconvertible(prompt.value)
    ensures r.Err? ==> r.error == NotPrimitive
    ensures r.Ok? && r.value != prompt ==> exists t :: r.value == Some(JString(t)) && t != "" && Trim(t) == t
    ensures r.Ok? && (KeyMissing(key) || fetched.Err? || (fetched.Ok? && !fetched.value.ok)) ==> r.value == prompt
  {
    if prompt.Some? && ToJsString(prompt.value).Err? then Err(ToJsString(prompt.value).error)
    else if KeyMissing(key) || fetched.Err? || !fetched.value.ok || fetched.value.body.Err? then Ok(prompt)
    else
      var content := FirstContent(fetched.value.body.value);
      if content.Some? && content.value.JString? && Trim(content.value.s) != "" then
        TrimIdempotent(content.value.s);
        Ok(Some(JString(Trim(content.value.s))))
      else Ok(prompt)
  }

  /** With a key and an ok reply, string content is used trimmed when the
      trimmed text is non-empty, and otherwise the original prompt is kept;
      any other content keeps the original prompt too. */
  lemma EnhanceUsesTrimmedContent(prompt: Option<Json>, key: Option<string>, reply: GroqReply, data: Json)
    requires !(prompt.Some? && Unconvertible(prompt.value))
    requires !KeyMissing(key) && reply.ok && reply.body == Ok(data)
    ensures FirstContent(data).Some? && FirstContent(data).value.JString? ==>
      var text := FirstContent(data).value.s;
      EnhancePrompt(prompt, key, Ok(reply)) == Ok(if Trim(text) == "" then prompt else Some(JString(Trim(text))))
    ensures FirstContent(data).None? || !FirstContent(data).value.JString? ==> EnhancePrompt(prompt, key, Ok(reply)) == Ok(prompt)
  {
  }

  // ------------------------------------------------------------------ POST

  /** The route's answers: the enhanced prompt (absent when `undefined`), a
      chat reply, a 400 and a 500. `now` stands for `new Date().toISOString()`. */
  datatype Response =
    | Enhanced(enhancedPrompt: Option<Json>)
    | ChatReply(response: string, tokens: Json, model: string, timestamp: string)
    | BadRequest(error: string)
    | ServerError(error: string, details: string, timestamp: string)

  function Status(r: Response): nat {
    match r
    case BadRequest(_) => 400
    case ServerError(_, _, _) => 500
    case _ => 200
  }

  /** The Groq request `POST` leads to, if any. */
  datatype Call = ChatCall(request: ChatRequest) | EnhanceCall(prompt: Option<Json>)

  const MessageRequired: string := "Message is required and must be a string"
  const GenerationFailed: string := "Failed to generate AI response"

  /** A readable, non-null enhancement request. */
  predicate IsEnhanceBody(body: Result<Json, string>) {
    body.Ok? && body.value != JNull && Get(body.value, "action") == Some(JString("enhance"))
  }

  /** A body that reaches generation: readable, not null, not an
      enhancement request, with a truthy string `message`. */
  predicate IsChatBody(body: Result<Json, string>) {
    body.Ok? && body.value != JNull && Get(body.value, "action") != Some(JString("enhance"))
    && Truthy(Get(body.value, "message")) && Get(body.value, "message").value.JString?
  }

  /**
   * `POST(req)`. `body` is the outcome of `req.json()` (a parse failure
   * carries its message), `key` the API key, `fetched` the settled Groq
   * reply and `now` the timestamp. Returns the response and the Groq
   * request made, if any.
   */
  function Post(body: Result<Json, string>, key: Option<string>, fetched: Result<GroqReply, string>, now: string)
    : (r: (Response, Option<Call>))
    ensures body.Err? ==> r == (ServerError(GenerationFailed, body.error, now), None)
    ensures body == Ok(JNull) ==> r == (ServerError(GenerationFailed, NullishRead(Some(JNull), "action"), now), None)
    ensures IsEnhanceBody(body) && EnhancePrompt(Get(body.value, "prompt"), key, fetched).Ok? ==>
      r.0 == Enhanced(EnhancePrompt(Get(body.value, "prompt"), key, fetched).value)
      && (r.1.Some? <==> !KeyMissing(key)) && (r.1.Some? ==> r.1.value == EnhanceCall(Get(body.value, "prompt")))
    ensures IsEnhanceBody(body) && EnhancePrompt(Get(body.value, "prompt"), key, fetched).Err? ==>
      r == (ServerError(GenerationFailed, EnhancePrompt(Get(body.value, "prompt"), key, fetched).error, now), None)
    ensures r.0.BadRequest? <==>
      body.Ok? && body.value != JNull && Get(body.value, "action") != Some(JString("enhance"))
      && !(Truthy(Get(body.value, "message")) && Get(body.value, "message").value.JString?)
    ensures r.0.BadRequest? ==> r == (BadRequest(MessageRequired), None)
    ensures r.1.Some? && r.1.value.ChatCall? ==>
      var request := r.1.value.request;
      IsChatBody(body) && !KeyMissing(key) && SystemPrompt(Get(body.value, "mode")).Ok?
      && request.system == SystemPrompt(Get(body.value, "mode")).value
      && request.messages == Conversation(Get(body.value, "history"), Get(body.value, "message").value.s)
    ensures r.0.ChatReply? ==>
      IsChatBody(body) && GenerateAIResponse(Get(body.value, "mode"), key, fetched) == Ok(AiResult(r.0.response, r.0.tokens, r.0.model))
    ensures IsChatBody(body) ==>
      (r.1.Some? <==> !KeyMissing(key) && SystemPrompt(Get(body.value, "mode")).Ok?) && (r.1.Some? ==> r.1.value.ChatCall?)
    ensures IsChatBody(body) && GenerateAIResponse(Get(body.value, "mode"), key, fetched).Ok? ==>
      var result := GenerateAIResponse(Get(body.value, "mode"), key, fetched).value;
      r.0 == ChatReply(result.response, result.tokens, result.model, now)
    ensures IsChatBody(body) && GenerateAIResponse(Get(body.value, "mode"), key, fetched).Err? ==>
      r.0 == ServerError(GenerationFailed, GenerateAIResponse(Get(body.value, "mode"), key, fetched).error, now)
  {
    if body.Err? then (ServerError(GenerationFailed, body.error, now), None)
    else if body.value.JNull? then (ServerError(GenerationFailed, NullishRead(Some(JNull), "action"), now), None)
    else
      var request := body.value;
      if Get(request, "action") == Some(JString("enhance")) then
        var prompt := Get(request, "prompt");
        match EnhancePrompt(prompt, key, fetched)
        case Err(details) => (ServerError(GenerationFailed, details, now), None)
        case Ok(enhanced) => (Enhanced(enhanced), if KeyMissing(key) then None else Some(EnhanceCall(prompt)))
      else
        var message := Get(request, "message");
        if !(Truthy(message) && message.value.JString?) then (BadRequest(MessageRequired), None)
        else
          var mode := Get(request, "mode");
          var sent := if KeyMissing(key) || SystemPrompt(mode).Err? then None
            else Some(ChatCall(ChatRequest(SystemPrompt(mode).value, Conversation(Get(request, "history"), message.value.s))));
          match GenerateAIResponse(mode, key, fetched)
          case Ok(result) => (ChatReply(result.response, result.tokens, result.model, now), sent)
          case Err(details) => (ServerError(GenerationFailed, details, now), sent)
  }

  /** Without an API key no Groq call is made, and a chat request fails
      with the key's message. */
  lemma MissingKeyChat(request: Json, fetched: Result<GroqReply, string>, now: string)
    requires request.JObject?
    requires Get(request, "action") != Some(JString("enhance"))
    requires Get(request, "message").Some? && Get(request, "message").value.JString?
    requires Get(request, "message").value.s != ""
    requires !(Get(request, "mode").Some? && Unconvertible(Get(request, "mode").value))
    ensures Post(Ok(request), None, fetched, now) == (ServerError(GenerationFailed, MissingKey, now), None)
  {
  }

  /** A chat request whose `mode` cannot be converted to a key fails with
      the `TypeError`, with or without an API key, and no Groq call is made. */
  lemma UnconvertibleModeChat(request: Json, key: Option<string>, fetched: Result<GroqReply, string>, now: string)
    requires request.JObject?
    requires Get(request, "action") != Some(JString("enhance"))
    requires Get(request, "message").Some? && Get(request, "message").value.JString?
    requires Get(request, "message").value.s != ""
    requires Get(request, "mode").Some? && Unconvertible(Get(request, "mode").value)
    ensures Post(Ok(request), key, fetched, now) == (ServerError(GenerationFailed, NotPrimitive, now), None)
  {
  }

  /** An enhancement request whose `prompt` cannot be converted fails with
      the `TypeError` before any Groq call, with or without an API key. */
  lemma UnconvertibleEnhancePrompt(request: Json, key: Option<string>, fetched: Result<GroqReply, string>, now: string)
    requires request.JObject?
    requires Get(request, "action") == Some(JString("enhance"))
    requires Get(request, "prompt").Some? && Unconvertible(Get(request, "prompt").value)
    ensures Post(Ok(request), key, fetched, now) == (ServerError(GenerationFailed, NotPrimitive, now), None)
  {
  }

  /** The bodies `{"message":"hi","mode":{"toString":1}}` and
      `{"action":"enhance","prompt":{"toString":1}}` both answer 500 with the
      `TypeError` and make no Groq call, whatever the key. */
  lemma HiddenToStringBodies(key: Option<string>, fetched: Result<GroqReply, string>, now: string)
    ensures Post(Ok(JObject(map["message" := JString("hi"), "mode" := JObject(map["toString" := JNumber(1)])])), key, fetched, now)
      == (ServerError(GenerationFailed, NotPrimitive, now), None)
    ensures Post(Ok(JObject(map["action" := JString("enhance"), "prompt" := JObject(map["toString" := JNumber(1)])])), key, fetched, now)
      == (ServerError(GenerationFailed, NotPrimitive, now), None)
  {
    var hidden := JObject(map["toString" := JNumber(1)]);
    var chat := JObject(map["message" := JString("hi"), "mode" := hidden]);
    assert Get(chat, "mode") == Some(hidden) && Get(chat, "message") == Some(JString("hi"));
    assert Get(chat, "action") == None;
    UnconvertibleModeChat(chat, key, fetched, now);
    var enhance := JObject(map["action" := JString("enhance"), "prompt" := hidden]);
    assert Get(enhance, "prompt") == Some(hidden) && Get(enhance, "action") == Some(JString("enhance"));
    UnconvertibleEnhancePrompt(enhance, key, fetched, now);
  }
}
