/**
 * llm_service.py: the `LLMService` class. Its constructor checks the API key and
 * hides the six proxy variables of the process environment while the HTTP client
 * is built; `GenerateFlashcards` builds the two chat messages, sends them through
 * the client and accepts the parsed reply only when it is a list whose every
 * element holds both "question" and "answer".
 *
 * The network, the OpenAI and httpx clients and `json.loads` are foreign code.
 * Their outcomes are parameters: `httpxOk` and `openAIOk` say whether
 * `httpx.Client()` and `OpenAI(...)` complete, `complete` is the chat completion
 * call (`None` when it raises or returns no content) and `parse` is `json.loads`
 * (`None` when it raises).
 */
module LlmService {
  import opened Wrappers
  import opened JsonValue
  import opened Environ

  // ---------------------------------------------------------------------------
  // Prompt assembly

  datatype ChatMessage = ChatMessage(role: string, content: string)

  const NO_SUBJECT_HEADER: string := "Generate flashcards from the following content:\n\n"
  const SUBJECT_OPENING: string := "Generate flashcards for a "
  const SUBJECT_CLOSING: string := " subject from the following content:\n\n"

  /** Python's truthiness of an optional string: neither None nor empty. */
  predicate IsGiven(s: Option<string>) {
    s.Some? && s.value != ""
  }

  /** The user message: the content, after a header that names the subject when one is given. */
  function UserMessage(content: string, subjectType: Option<string>): (m: string)
    // the content closes the message, verbatim
    ensures |content| <= |m| && m[|m| - |content|..] == content
    // every message opens with the same instruction
    ensures 20 <= |m| && m[..20] == "Generate flashcards "
    ensures !IsGiven(subjectType) ==> |m| == |NO_SUBJECT_HEADER| + |content|
    // a given subject sits right after "for a "
    ensures IsGiven(subjectType) ==>
              |m| == |SUBJECT_OPENING| + |subjectType.value| + |SUBJECT_CLOSING| + |content| &&
              m[|SUBJECT_OPENING|..|SUBJECT_OPENING| + |subjectType.value|] == subjectType.value
  {
    if IsGiven(subjectType) then
      var m := SUBJECT_OPENING + subjectType.value + SUBJECT_CLOSING + content;
      assert m[..20] == SUBJECT_OPENING[..20];
      m
    else
      var m := NO_SUBJECT_HEADER + content;
      assert m[..20] == NO_SUBJECT_HEADER[..20];
      m
  }

  /** Two contents give the same user message only if they are equal. */
  lemma UserMessageDeterminesContent(c1: string, c2: string, subjectType: Option<string>)
    requires UserMessage(c1, subjectType) == UserMessage(c2, subjectType)
    ensures c1 == c2
  {
  }

  /** For one content, two given subjects give the same user message only if they are equal. */
  lemma UserMessageDeterminesSubject(content: string, s1: string, s2: string)
    requires s1 != "" && s2 != ""
    requires UserMessage(content, Some(s1)) == UserMessage(content, Some(s2))
    ensures s1 == s2
  {
  }

  /** A message with a subject never equals one without, whatever the two contents. */
  lemma SubjectIsVisible(c1: string, c2: string, subject: string)
    requires subject != ""
    ensures UserMessage(c1, Some(subject)) != UserMessage(c2, None)
  {
    var withSubject := UserMessage(c1, Some(subject));
    var without := UserMessage(c2, None);
    assert withSubject[21] == SUBJECT_OPENING[21] == 'o';
    assert without[21] == NO_SUBJECT_HEADER[21] == 'r';
  }

  /** The messages list: the system instruction first, the user message second. */
  function BuildMessages(systemPrompt: string, content: string, subjectType: Option<string>): (ms: seq<ChatMessage>)
    ensures |ms| == 2
    ensures ms[0] == ChatMessage("system", systemPrompt)
    ensures ms[1] == ChatMessage("user", UserMessage(content, subjectType))
  {
    [ChatMessage("system", systemPrompt), ChatMessage("user", UserMessage(content, subjectType))]
  }

  // ---------------------------------------------------------------------------
  // Reply validation

  const REQUIRED_KEYS: seq<string> := ["question", "answer"]

  /**
   * `all(k in card for k in keys)`: stops at the first key that is missing
   * (`Some(false)`) or whose test raises (`None`).
   */
  function AllKeysIn(keys: seq<string>, card: Json): (r: Option<bool>)
    ensures r == Some(true) <==> forall i :: 0 <= i < |keys| ==> Contains(card, keys[i]) == Some(true)
    ensures keys != [] ==> (r.None? <==> Contains(card, keys[0]).None?)
  {
    if keys == [] then Some(true)
    else
      match Contains(card, keys[0])
      case None => None
      case Some(false) => Some(false)
      case Some(true) => AllKeysIn(keys[1..], card)
  }

  /** An element that passes the source's check. */
  predicate IsCard(card: Json) {
    AllKeysIn(REQUIRED_KEYS, card) == Some(true)
  }

  /** What the check accepts, case by case on the element's Python type. */
  lemma IsCardMeaning(card: Json)
    ensures IsCard(card) <==>
              match card
              case Object(fields) => "question" in fields && "answer" in fields
              case Str(s) => IsSubstring("question", s) && IsSubstring("answer", s)
              case Array(items) => Str("question") in items && Str("answer") in items
              case _ => false
  {
  }

  /**
   * The result for a parsed reply (`None`: the call or the parse raised): the
   * reply itself when it is a list of acceptable elements, otherwise `[]`.
   */
  function PostProcess(parsed: Option<Json>): (cards: seq<Json>)
    // the result is empty or it is the whole reply, unchanged
    ensures cards == [] || (parsed == Some(Array(cards)) && forall i :: 0 <= i < |cards| ==> IsCard(cards[i]))
    // a list of acceptable elements is returned unchanged
    ensures parsed.Some? && parsed.value.Array? && (forall i :: 0 <= i < |parsed.value.items| ==> IsCard(parsed.value.items[i])) ==>
              cards == parsed.value.items
    // one unacceptable element empties the whole batch
    ensures parsed.Some? && parsed.value.Array? && (exists i :: 0 <= i < |parsed.value.items| && !IsCard(parsed.value.items[i])) ==>
              cards == []
  {
    match parsed
    case Some(Array(items)) => if forall i :: 0 <= i < |items| ==> IsCard(items[i]) then items else []
    case _ => []
  }

  /** The parsed reply: the completion's text through `json.loads`. */
  function ParsedReply(reply: Option<string>, parse: string -> Option<Json>): (parsed: Option<Json>)
    ensures parsed.Some? <==> reply.Some? && parse(reply.value).Some?
    ensures parsed.Some? ==> parsed == parse(reply.value)
  {
    match reply
    case Some(text) => parse(text)
    case None => None
  }

  /** A list of strings that each mention both words is accepted as it is. */
  lemma StringElementsPass(items: seq<Json>)
    requires forall i :: 0 <= i < |items| ==>
               items[i].Str? && IsSubstring("question", items[i].s) && IsSubstring("answer", items[i].s)
    ensures PostProcess(Some(Array(items))) == items
  {
    forall i | 0 <= i < |items|
      ensures IsCard(items[i])
    {
      IsCardMeaning(items[i]);
    }
  }

  /** Example: the one-element list `["question and answer"]` is accepted. */
  lemma StringElementExample()
    ensures PostProcess(Some(Array([Str("question and answer")]))) == [Str("question and answer")]
  {
    var s := "question and answer";
    assert OccursAt("question", s, 0);
    OccursAtGivesSubstring("question", s, 0);
    assert OccursAt("answer", s, 13);
    OccursAtGivesSubstring("answer", s, 13);
    StringElementsPass([Str(s)]);
  }

  /** A null, a boolean or a number anywhere in the list makes the membership test raise, and the batch is lost. */
  lemma NonContainerEmptiesBatch(items: seq<Json>, i: nat)
    requires i < |items| && (items[i].Null? || items[i].Bool? || items[i].Number?)
    ensures PostProcess(Some(Array(items))) == []
  {
    assert !IsCard(items[i]);
  }

  // ---------------------------------------------------------------------------
  // The service

  /** An httpx client, with the environment entries its proxy lookup read when it was built. */
  datatype HttpClient = HttpClient(proxies: map<string, string>)

  /** An OpenAI client: its key, its transport, and whether that transport was passed in explicitly. */
  datatype OpenAIClient = OpenAIClient(apiKey: string, http: HttpClient, explicitHttpClient: bool)

  datatype InitError =
    | MissingApiKey        // ValueError: OPENAI_API_KEY not set
    | ClientInitFailed     // the OpenAI constructor raised

  const API_KEY_VAR: string := "OPENAI_API_KEY"
  const PROXY_VARS: set<string> := {"HTTP_PROXY", "HTTPS_PROXY", "NO_PROXY", "http_proxy", "https_proxy", "no_proxy"}

  /** ASCII lower-casing; on the letters of "_proxy" it agrees with Python's `str.lower`. */
  function LowerAscii(c: char): char {
    if 'A' <= c <= 'Z' then (c as int + 32) as char else c
  }

  /**
   * The names the standard library's proxy lookup (`urllib.request.getproxies`,
   * which httpx uses by default) reads: any name whose lower-cased form ends in "_proxy".
   */
  predicate IsProxyVarName(name: string) {
    var n := |name|;
    n >= 6 &&
    [LowerAscii(name[n - 6]), LowerAscii(name[n - 5]), LowerAscii(name[n - 4]),
     LowerAscii(name[n - 3]), LowerAscii(name[n - 2]), LowerAscii(name[n - 1])] == "_proxy"
  }

  /**
   * The environment entries an httpx client built with default settings takes its
   * proxy configuration from: every proxy-named variable with a non-empty value.
   */
  function ProxySettings(vars: map<string, string>): (p: map<string, string>)
    ensures forall k :: k in p <==> k in vars && IsProxyVarName(k) && vars[k] != ""
    ensures forall k :: k in p ==> p[k] == vars[k]
  {
    map k | k in vars && IsProxyVarName(k) && vars[k] != "" :: vars[k]
  }

  /** Each of the six hidden variables is one the proxy lookup reads. */
  lemma HiddenVarsAreProxyVars()
    ensures forall k :: k in PROXY_VARS ==> IsProxyVarName(k)
  {
    assert IsProxyVarName("HTTP_PROXY");
    assert IsProxyVarName("HTTPS_PROXY");
    assert IsProxyVarName("NO_PROXY");
    assert IsProxyVarName("http_proxy");
    assert IsProxyVarName("https_proxy");
    assert IsProxyVarName("no_proxy");
  }

  /** Hiding the six variables removes exactly them from what the lookup sees; other proxy variables pass through. */
  lemma HidingRemovesOnlyThose(vars: map<string, string>)
    ensures ProxySettings(vars - PROXY_VARS) == ProxySettings(vars) - PROXY_VARS
  {
  }

  /** Example: `ALL_PROXY` is not hidden, so a client built in this environment still uses it. */
  lemma AllProxyStillUsed()
    ensures ProxySettings(map["OPENAI_API_KEY" := "k", "ALL_PROXY" := "http://p:3128"] - PROXY_VARS)
            == map["ALL_PROXY" := "http://p:3128"]
  {
    var vars := map["OPENAI_API_KEY" := "k", "ALL_PROXY" := "http://p:3128"];
    assert "ALL_PROXY" !in PROXY_VARS;
    assert IsProxyVarName("ALL_PROXY");
    assert !IsProxyVarName("OPENAI_API_KEY") by {
      assert LowerAscii("OPENAI_API_KEY"[8]) != "_proxy"[0];
    }
  }

  /** `api_key = os.getenv("OPENAI_API_KEY")` followed by `if not api_key`: the key counts only when set and non-empty. */
  function HasApiKey(vars: map<string, string>): (b: bool)
    ensures b <==> API_KEY_VAR in vars && |vars[API_KEY_VAR]| > 0
  {
    match Lookup(vars, API_KEY_VAR)
    case Some(key) => key != ""
    case None => false
  }

  /** The six values `__init__` pops, in the order it pops them. */
  datatype ProxySnapshot = ProxySnapshot(
    httpProxy: Option<string>, httpsProxy: Option<string>, noProxy: Option<string>,
    httpProxyLower: Option<string>, httpsProxyLower: Option<string>, noProxyLower: Option<string>)

  function SnapshotOf(vars: map<string, string>): ProxySnapshot {
    ProxySnapshot(Lookup(vars, "HTTP_PROXY"), Lookup(vars, "HTTPS_PROXY"), Lookup(vars, "NO_PROXY"),
                  Lookup(vars, "http_proxy"), Lookup(vars, "https_proxy"), Lookup(vars, "no_proxy"))
  }

  /** Putting back one popped variable: the environment misses one variable fewer. */
  lemma RestoreOne(original: map<string, string>, hidden: set<string>, key: string, saved: Option<string>)
    requires key in hidden
    requires saved == Lookup(original, key)
    ensures (if saved.Some? then (original - hidden)[key := saved.value] else original - hidden) == original - (hidden - {key})
  {
  }

  /** Popping a variable not yet hidden: it returns the original value and hides one variable more. */
  lemma PopOne(original: map<string, string>, hidden: set<string>, key: string)
    requires key !in hidden
    ensures Lookup(original - hidden, key) == Lookup(original, key)
    ensures (original - hidden) - {key} == original - (hidden + {key})
  {
  }

  /** The six `os.environ.pop(name, None)` calls of `__init__`. */
  method HideProxyVars(env: Environment) returns (saved: ProxySnapshot)
    modifies env
    ensures saved == SnapshotOf(old(env.vars))
    ensures env.vars == old(env.vars) - PROXY_VARS
  {
    ghost var original := env.vars;
    // the per-step assertions below keep this proof within the resource limit on every solver seed
    ghost var hidden: set<string> := {};
    PopOne(original, hidden, "HTTP_PROXY");
    var originalHttpProxy := env.Pop("HTTP_PROXY");
    assert originalHttpProxy == Lookup(original, "HTTP_PROXY");
    hidden := hidden + {"HTTP_PROXY"};
    assert env.vars == original - hidden;
    PopOne(original, hidden, "HTTPS_PROXY");
    var originalHttpsProxy := env.Pop("HTTPS_PROXY");
    assert originalHttpsProxy == Lookup(original, "HTTPS_PROXY");
    hidden := hidden + {"HTTPS_PROXY"};
    assert env.vars == original - hidden;
    PopOne(original, hidden, "NO_PROXY");
    var originalNoProxy := env.Pop("NO_PROXY");
    assert originalNoProxy == Lookup(original, "NO_PROXY");
    hidden := hidden + {"NO_PROXY"};
    assert env.vars == original - hidden;
    PopOne(original, hidden, "http_proxy");
    var originalHttpProxyLower := env.Pop("http_proxy");
    assert originalHttpProxyLower == Lookup(original, "http_proxy");
    hidden := hidden + {"http_proxy"};
    assert env.vars == original - hidden;
    PopOne(original, hidden, "https_proxy");
    var originalHttpsProxyLower := env.Pop("https_proxy");
    assert originalHttpsProxyLower == Lookup(original, "https_proxy");
    hidden := hidden + {"https_proxy"};
    assert env.vars == original - hidden;
    PopOne(original, hidden, "no_proxy");
    var originalNoProxyLower := env.Pop("no_proxy");
    assert originalNoProxyLower == Lookup(original, "no_proxy");
    hidden := hidden + {"no_proxy"};
    assert env.vars == original - hidden;
    assert hidden == PROXY_VARS;
    assert env.vars == original - PROXY_VARS;
    saved := ProxySnapshot(originalHttpProxy, originalHttpsProxy, originalNoProxy,
                           originalHttpProxyLower, originalHttpsProxyLower, originalNoProxyLower);
  }

  /** `if saved is not None: os.environ[key] = saved`. */
  function PutBack(vars: map<string, string>, key: string, saved: Option<string>): map<string, string> {
    if saved.Some? then vars[key := saved.value] else vars
  }

  /** The environment after the six conditional restores, in the order `__init__` does them. */
  function Restored(vars: map<string, string>, saved: ProxySnapshot): map<string, string> {
    var v1 := PutBack(vars, "HTTP_PROXY", saved.httpProxy);
    var v2 := PutBack(v1, "HTTPS_PROXY", saved.httpsProxy);
    var v3 := PutBack(v2, "NO_PROXY", saved.noProxy);
    var v4 := PutBack(v3, "http_proxy", saved.httpProxyLower);
    var v5 := PutBack(v4, "https_proxy", saved.httpsProxyLower);
    PutBack(v5, "no_proxy", saved.noProxyLower)
  }

  /** Hiding the proxy variables and putting back what was saved gives back the environment exactly. */
  lemma HideRestoreRoundTrip(vars: map<string, string>)
    ensures Restored(vars - PROXY_VARS, SnapshotOf(vars)) == vars
  {
    var saved := SnapshotOf(vars);
    var hidden := PROXY_VARS;
    RestoreOne(vars, hidden, "HTTP_PROXY", saved.httpProxy);
    hidden := hidden - {"HTTP_PROXY"};
    RestoreOne(vars, hidden, "HTTPS_PROXY", saved.httpsProxy);
    hidden := hidden - {"HTTPS_PROXY"};
    RestoreOne(vars, hidden, "NO_PROXY", saved.noProxy);
    hidden := hidden - {"NO_PROXY"};
    RestoreOne(vars, hidden, "http_proxy", saved.httpProxyLower);
    hidden := hidden - {"http_proxy"};
    RestoreOne(vars, hidden, "https_proxy", saved.httpsProxyLower);
    hidden := hidden - {"https_proxy"};
    RestoreOne(vars, hidden, "no_proxy", saved.noProxyLower);
    hidden := hidden - {"no_proxy"};
    assert hidden == {};
    assert vars - hidden == vars;
  }

  /** The six conditional restores of `__init__`: a variable is put back only if it was present. */
  method RestoreProxyVars(env: Environment, saved: ProxySnapshot)
    modifies env
    ensures env.vars == Restored(old(env.vars), saved)
  {
    if saved.httpProxy.Some? {
      env.Set("HTTP_PROXY", saved.httpProxy.value);
    }
    if saved.httpsProxy.Some? {
      env.Set("HTTPS_PROXY", saved.httpsProxy.value);
    }
    if saved.noProxy.Some? {
      env.Set("NO_PROXY", saved.noProxy.value);
    }
    if saved.httpProxyLower.Some? {
      env.Set("http_proxy", saved.httpProxyLower.value);
    }
    if saved.httpsProxyLower.Some? {
      env.Set("https_proxy", saved.httpsProxyLower.value);
    }
    if saved.noProxyLower.Some? {
      env.Set("no_proxy", saved.noProxyLower.value);
    }
  }

  class LLMService {
    var client: OpenAIClient

    constructor (client: OpenAIClient)
      ensures this.client == client
    {
      this.client := client;
    }

    /**
     * `LLMService()`: fail before touching the environment when there is no key;
     * otherwise remove the six proxy variables, build the clients, and put back
     * the variables that were present. When the OpenAI constructor raises, the
     * restore does not run.
     */
    static method Create(env: Environment, httpxOk: bool, openAIOk: bool) returns (r: Result<LLMService, InitError>)
      modifies env
      ensures r.Success? <==> HasApiKey(old(env.vars)) && openAIOk
      ensures r == Failure(MissingApiKey) <==> !HasApiKey(old(env.vars))
      ensures r == Failure(MissingApiKey) ==> env.vars == old(env.vars)
      ensures r == Failure(ClientInitFailed) ==> env.vars == old(env.vars) - PROXY_VARS
      ensures r.Success? ==> env.vars == old(env.vars)
      ensures r.Success? ==> fresh(r.value)
      ensures r.Success? ==>
                r.value.client == OpenAIClient(old(env.vars)[API_KEY_VAR], HttpClient(ProxySettings(old(env.vars) - PROXY_VARS)), httpxOk)
      // the client sees none of the six hidden variables, and every other proxy variable as it was
      ensures r.Success? ==> r.value.client.http.proxies == ProxySettings(old(env.vars)) - PROXY_VARS
    {
      var apiKey := Lookup(env.vars, API_KEY_VAR);
      if apiKey.None? || apiKey.value == "" {
        return Failure(MissingApiKey);
      }
      ghost var original := env.vars;
      var saved := HideProxyVars(env);

      // httpx.Client(), or None when it raises
      var configuredHttpClient: Option<HttpClient> := if httpxOk then Some(HttpClient(ProxySettings(env.vars))) else None;
      if !openAIOk {
        return Failure(ClientInitFailed);
      }
      var newClient: OpenAIClient;
      match configuredHttpClient {
        case Some(h) =>
          newClient := OpenAIClient(apiKey.value, h, true);
        case None =>
          // OpenAI builds its own transport, in the same environment
          newClient := OpenAIClient(apiKey.value, HttpClient(ProxySettings(env.vars)), false);
      }
      HidingRemovesOnlyThose(original);

      RestoreProxyVars(env, saved);
      HideRestoreRoundTrip(original);

      var service := new LLMService(newClient);
      return Success(service);
    }

    /**
     * `generate_flashcards`: send the two messages, parse the reply, and return
     * it only when it is a list whose every element holds both required keys.
     * Every failure, raised or detected, ends in `[]`.
     */
    method GenerateFlashcards(systemPrompt: string, content: string, subjectType: Option<string>,
                              complete: (OpenAIClient, seq<ChatMessage>) -> Option<string>,
                              parse: string -> Option<Json>)
      returns (cards: seq<Json>)
      ensures cards == PostProcess(ParsedReply(complete(client, BuildMessages(systemPrompt, content, subjectType)), parse))
    {
      var messages := BuildMessages(systemPrompt, content, subjectType);
      var reply := complete(client, messages);
      if reply.None? {
        return [];
      }
      var flashcards := parse(reply.value);
      if flashcards.None? || !flashcards.value.Array? {
        return [];
      }
      var items := flashcards.value.items;
      for i := 0 to |items|
        invariant forall j :: 0 <= j < i ==> IsCard(items[j])
      {
        if AllKeysIn(REQUIRED_KEYS, items[i]) != Some(true) {
          return [];
        }
      }
      return items;
    }
  }
}
