/**
 * The retrieval-augmented chat service: the health rule, the readiness
 * gate of `/chat`, the retrieved contexts (each a 500-character prefix of a
 * document with score 1 - distance), the rendered context block, the
 * optional county and stress lines, and the fixed prompt layout.
 *
 * The vector store and the language model are oracles: `query` is the
 * store's answer (`None` when the query raises) and `generate(prompt)` the
 * model's text (`None` when generation raises). The agricultural context is
 * a map from key to the text its value renders as.
 */
module RagService {
  import opened Common
  import opened Text

  const DEFAULT_MODEL := "gemini-1.5-pro"
  const COLLECTION_NAME := "corn-stress-knowledge"
  const N_RESULTS := 5
  const MAX_CONTEXT_CHARS := 500
  const NOT_READY_DETAIL := "Service not ready"
  const NO_CONTEXT := "No context found"
  const MAX_OUTPUT_TOKENS := 1024
  const TEMPERATURE: real := 0.3

  const SYSTEM_PROMPT :=
    "You are AgriBot, an expert in Iowa corn farming and stress analysis.\n"
    + "Answer questions about corn stress, yields, and farming practices based on retrieved knowledge.\n"
    + "Keep responses concise and actionable."

  // ---------------------------------------------------------------------------
  // health and the readiness gate
  // ---------------------------------------------------------------------------

  /** A key is configured when the variable is set; it counts as present only when non-empty. */
  predicate Truthy(s: Option<string>) {
    s.Some? && s.value != ""
  }

  /** `collection and GEMINI_API_KEY`: a collection handle and a non-empty key. */
  predicate Ready(connected: bool, apiKey: Option<string>) {
    connected && Truthy(apiKey)
  }

  /** The body of `GET /health`, without its timestamp. */
  datatype Health = Health(status: string, chromaConnected: bool, geminiConfigured: bool)

  function HealthReport(connected: bool, apiKey: Option<string>): (h: Health)
    ensures h.status == "healthy" <==> Ready(connected, apiKey)
    ensures h.status == "healthy" || h.status == "degraded"
    ensures h.chromaConnected == connected && h.geminiConfigured == apiKey.Some?
  {
    Health(if Ready(connected, apiKey) then "healthy" else "degraded", connected, apiKey.Some?)
  }

  /** Why a chat request fails. */
  datatype ChatError = NotReady | Failed {
    /** The HTTP status of the raised `HTTPException`. */
    function Code(): int {
      match this
      case NotReady => 503
      case Failed => 500
    }
  }

  /** An empty key is reported as configured, yet the service is degraded and refuses chats. */
  lemma EmptyKeyIsNotReady(connected: bool)
    ensures HealthReport(connected, Some("")).geminiConfigured
    ensures HealthReport(connected, Some("")).status == "degraded"
  {
  }

  // ---------------------------------------------------------------------------
  // retrieved contexts
  // ---------------------------------------------------------------------------

  /** `s[:n]` */
  function Prefix(s: string, n: nat): (p: string)
    ensures |p| == if |s| <= n then |s| else n
    ensures StartsWith(s, p)
  {
    if |s| <= n then s else s[..n]
  }

  /** `{"text": doc[:500], "score": float(1 - dist)}` */
  datatype ContextItem = ContextItem(text: string, score: real)

  /** The store's answer: one row of documents and one row of distances per query text. */
  datatype QueryResult = QueryResult(documents: seq<seq<string>>, distances: seq<seq<real>>)

  function Item(doc: string, dist: real): ContextItem {
    ContextItem(Prefix(doc, MAX_CONTEXT_CHARS), 1.0 - dist)
  }

  /** The contexts `chat` builds from the first row; `None` when reading the distances raises. */
  function Retrieved(result: QueryResult): Option<seq<ContextItem>> {
    var docs, dists := result.documents, result.distances;
    if |docs| == 0 || |docs[0]| == 0 then Some([])
    else if |dists| == 0 then None
    else
      var n := if |docs[0]| <= |dists[0]| then |docs[0]| else |dists[0]|;
      Some(seq(n, k requires 0 <= k < n => Item(docs[0][k], dists[0][k])))
  }

  /** The loop over `zip(documents[0], distances[0])`, behind the test that the first row is non-empty. */
  method RetrieveContexts(result: QueryResult) returns (contexts: Option<seq<ContextItem>>)
    ensures contexts == Retrieved(result)
  {
    var docs, dists := result.documents, result.distances;
    var items: seq<ContextItem> := [];
    if |docs| > 0 && |docs[0]| > 0 {
      if |dists| == 0 {
        return None;
      }
      var row, scores := docs[0], dists[0];
      var k := 0;
      while k < |row| && k < |scores|
        invariant 0 <= k <= |row| && k <= |scores|
        invariant items == seq(k, j requires 0 <= j < k => Item(row[j], scores[j]))
      {
        items := items + [ContextItem(Prefix(row[k], MAX_CONTEXT_CHARS), 1.0 - scores[k])];
        k := k + 1;
      }
    }
    contexts := Some(items);
  }

  /**
   * Without documents nothing is retrieved; otherwise one context per
   * zipped pair, in order, unless the distances are missing. Each text is
   * the document's first 500 characters (all of it when shorter) and each
   * score is one minus the distance.
   */
  lemma RetrievedExact(result: QueryResult)
    ensures var docs, dists := result.documents, result.distances;
      && (Retrieved(result).None? <==> |docs| > 0 && |docs[0]| > 0 && |dists| == 0)
      && ((|docs| == 0 || |docs[0]| == 0) ==> Retrieved(result) == Some([]))
      && (Retrieved(result).Some? && |docs| > 0 && |docs[0]| > 0 ==>
            var cs := Retrieved(result).value;
            && |cs| == (if |docs[0]| <= |dists[0]| then |docs[0]| else |dists[0]|)
            && forall k :: 0 <= k < |cs| ==>
                 && StartsWith(docs[0][k], cs[k].text)
                 && |cs[k].text| == (if |docs[0][k]| <= MAX_CONTEXT_CHARS then |docs[0][k]| else MAX_CONTEXT_CHARS)
                 && cs[k].score + dists[0][k] == 1.0)
  {
  }

  // ---------------------------------------------------------------------------
  // the prompt
  // ---------------------------------------------------------------------------

  /** `f"- {c['text']}"` for every context. */
  function Bullets(contexts: seq<ContextItem>): (lines: seq<string>)
    ensures |lines| == |contexts|
  {
    seq(|contexts|, k requires 0 <= k < |contexts| => "- " + contexts[k].text)
  }

  /** `context_str`: the bullet lines joined by newlines, or the fallback text. */
  function ContextStr(contexts: seq<ContextItem>): string {
    if contexts == [] then NO_CONTEXT else Join("\n", Bullets(contexts))
  }

  lemma JoinStartsWithFirst(sep: string, parts: seq<string>)
    requires |parts| > 0
    ensures StartsWith(Join(sep, parts), parts[0])
  {
  }

  /** The fallback appears exactly when nothing was retrieved: a bullet block starts with `-`. */
  lemma ContextStrFallback(contexts: seq<ContextItem>)
    ensures ContextStr(contexts) == NO_CONTEXT <==> contexts == []
    ensures contexts != [] ==> StartsWith(ContextStr(contexts), "- ")
  {
    if contexts != [] {
      var lines := Bullets(contexts);
      JoinStartsWithFirst("\n", lines);
      assert ContextStr(contexts)[0] == lines[0][0] == '-';
    }
  }

  /**
   * When no retrieved text holds a newline, splitting the block on newlines
   * gives back one bullet per context in retrieval order, and stripping
   * the bullet gives back the text.
   */
  lemma ContextStrRoundTrip(contexts: seq<ContextItem>)
    requires contexts != []
    requires forall k :: 0 <= k < |contexts| ==> '\n' !in contexts[k].text
    ensures SplitOn('\n', ContextStr(contexts)) == Bullets(contexts)
    ensures forall k :: 0 <= k < |contexts| ==> Bullets(contexts)[k][2..] == contexts[k].text
  {
    var lines := Bullets(contexts);
    forall k | 0 <= k < |lines| ensures '\n' !in lines[k] {
      assert lines[k] == "- " + contexts[k].text;
    }
    SplitOnJoin('\n', lines);
  }

  /** `str()` of an optional integer. */
  function ShowInt(i: Option<int>): string {
    if i.None? then "None" else IntToString(i.value)
  }

  /** `agri_data.get(key)` rendered: the value's text, or `None`. */
  function Show(data: map<string, string>, key: string): string {
    if key in data then data[key] else "None"
  }

  /** The county line, present only for a non-empty county. */
  function CountyInfo(county: Option<string>, week: Option<int>): (info: string)
    ensures info == "" <==> !Truthy(county)
    ensures Truthy(county) ==> info == "\nCounty: " + county.value + ", Week: " + ShowInt(week)
  {
    if Truthy(county) then "\nCounty: " + county.value + ", Week: " + ShowInt(week) else ""
  }

  /** The stress line, present only for a non-empty agricultural context. */
  function StressInfo(agriContext: Option<map<string, string>>): (info: string)
    ensures info == "" <==> agriContext.None? || agriContext.value == map[]
  {
    var data := if agriContext.None? then map[] else agriContext.value;
    if data == map[] then ""
    else
      "\nCurrent stress data: CSI=" + Show(data, "csi_overall")
      + ", Water=" + Show(data, "water_stress") + ", Heat=" + Show(data, "heat_stress")
  }

  /** The question section of the prompt. */
  function QuestionPart(query: string, countyInfo: string, stressInfo: string): string {
    "\n\nQuestion: " + query + countyInfo + stressInfo
  }

  /** The context section of the prompt, which closes it. */
  function ContextPart(contextStr: string): string {
    "\n\nKnowledge base context:\n" + contextStr + "\n\nAnswer:"
  }

  /** The prompt template. */
  function Prompt(query: string, countyInfo: string, stressInfo: string, contextStr: string): string {
    SYSTEM_PROMPT + QuestionPart(query, countyInfo, stressInfo) + ContextPart(contextStr)
  }

  /**
   * The prompt opens with the system prompt and the question line, carries
   * the county and stress lines right after the question, and ends with
   * the context block and `Answer:`.
   */
  lemma PromptLayout(query: string, countyInfo: string, stressInfo: string, contextStr: string)
    ensures var p := Prompt(query, countyInfo, stressInfo, contextStr);
      && StartsWith(p, SYSTEM_PROMPT + "\n\nQuestion: " + query + countyInfo + stressInfo)
      && EndsWith(p, "\n\nKnowledge base context:\n" + contextStr + "\n\nAnswer:")
      && EndsWith(p, "\n\nAnswer:")
      && OccursAt(contextStr, p, |p| - |contextStr| - |"\n\nAnswer:"|)
  {
    var head := SYSTEM_PROMPT + "\n\nQuestion: " + query + countyInfo + stressInfo;
    assert head == SYSTEM_PROMPT + QuestionPart(query, countyInfo, stressInfo);
    Framed(head, "\n\nKnowledge base context:\n", contextStr, "\n\nAnswer:");
  }

  /** A text built as `head + (pre + mid + post)` starts with `head`, ends with `post`, and holds `mid` just before it. */
  lemma Framed(head: string, pre: string, mid: string, post: string)
    ensures var p := head + (pre + mid + post);
      && StartsWith(p, head)
      && EndsWith(p, pre + mid + post)
      && EndsWith(p, post)
      && OccursAt(mid, p, |p| - |mid| - |post|)
  {
    var p := head + (pre + mid + post);
    assert p[..|head|] == head;
    assert p[|p| - |post|..] == post;
    assert p[|p| - |mid| - |post|..|p| - |post|] == mid;
  }

  // ---------------------------------------------------------------------------
  // chat
  // ---------------------------------------------------------------------------

  /** The request body of `POST /chat`. */
  datatype ChatMessage = ChatMessage(
    query: string, county: Option<string>, week: Option<int>, agriContext: Option<map<string, string>>)

  /** The response body, without its timestamp. */
  datatype ChatResponse = ChatResponse(response: string, retrievedContexts: seq<ContextItem>, model: string)

  /** The prompt `chat` sends for a message and its retrieved contexts. */
  function ChatPrompt(message: ChatMessage, contexts: seq<ContextItem>): string {
    Prompt(message.query, CountyInfo(message.county, message.week), StressInfo(message.agriContext), ContextStr(contexts))
  }

  /** `POST /chat`: the gate, the retrieval, the prompt and the model's answer. */
  method Chat(
    connected: bool, apiKey: Option<string>, model: string, message: ChatMessage,
    query: Option<QueryResult>, generate: string -> Option<string>)
    returns (r: Result<ChatResponse, ChatError>)
    ensures r == Err(NotReady) <==> !Ready(connected, apiKey)
    ensures Ready(connected, apiKey) && query.None? ==> r == Err(Failed)
    ensures Ready(connected, apiKey) && query.Some? && Retrieved(query.value).None? ==> r == Err(Failed)
    ensures Ready(connected, apiKey) && query.Some? && Retrieved(query.value).Some? ==>
      var contexts := Retrieved(query.value).value;
      var answer := generate(ChatPrompt(message, contexts));
      && (answer.None? ==> r == Err(Failed))
      && (answer.Some? ==> r == Ok(ChatResponse(answer.value, contexts, model)))
  {
    if !connected || apiKey.None? || apiKey.value == "" {
      return Err(NotReady);
    }
    if query.None? {
      return Err(Failed);
    }
    var contexts := RetrieveContexts(query.value);
    if contexts.None? {
      return Err(Failed);
    }
    var prompt := Prompt(message.query, CountyInfo(message.county, message.week),
                         StressInfo(message.agriContext), ContextStr(contexts.value));
    var answer := generate(prompt);
    if answer.None? {
      return Err(Failed);
    }
    r := Ok(ChatResponse(answer.value, contexts.value, model));
  }
}
