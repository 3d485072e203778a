# Flashcard generator core, modelled in Dafny

The repository turns study material into question/answer flashcards with a
large-language-model API. Its own logic is small, and this project models it:

- **Content dispatcher** (`content_parser.py`). `parse_input_content` takes an
  input kind (`'file_upload'` or `'direct_paste'`), an optional uploaded file and
  an optional pasted text. It returns the text or raises. A `.txt` file is
  decoded as UTF-8. A `.pdf` file is read page by page, and the page texts are
  joined in order.
- **LLM service** (`llm_service.py`). The `LLMService` constructor checks
  `OPENAI_API_KEY`. It then hides the six proxy variables of the process
  environment while the HTTP client is built, and puts back those that were set.
  `generate_flashcards` builds a system message and a user message, sends them,
  and parses the reply. It keeps the reply only if the reply is a JSON list
  whose every element passes the `"question"`/`"answer"` membership test.
  Every failure becomes `[]`.

Files and modules:

- `wrappers.dfy` (`Wrappers`): `Option` and `Result`.
- `content_parser.dfy` (`ContentParser`): the dispatcher, the page-joining loop
  and its specification `ConcatPages`.
- `json_value.dfy` (`JsonValue`): the Python value `json.loads` returns, and
  Python's `key in value` on it.
- `environ.dfy` (`Environ`): `os.environ` as a class with one `map` field.
- `llm_service.dfy` (`LlmService`): prompt assembly, reply validation, and the
  `LLMService` class.

Foreign calls are parameters:

- `decode` stands for `bytes.decode('utf-8')`. It gives `None` when decoding raises.
- `readPdf` stands for `PdfReader(...)` followed by `extract_text()` on each
  page. It gives `None` when the reader raises. A page without text is a `None` page.
- `complete` stands for the chat completion call plus
  `response.choices[0].message.content`. It gives `None` when the call raises or
  returns no content.
- `parse` stands for `json.loads`. It gives `None` when parsing raises.
- `httpxOk` and `openAIOk` say whether `httpx.Client()` and `OpenAI(...)` complete.

The HTTP client is modelled by the environment entries its proxy lookup reads
when it is built (`HttpClient.proxies`). That lookup reads every variable whose
lower-cased name ends in `_proxy` and whose value is non-empty. This makes the
effect of the pop/restore statable. The client sees none of the six hidden
variables, and the environment comes back unchanged. Any other proxy variable,
such as `ALL_PROXY` or `all_proxy`, still reaches the client
(`LlmService.AllProxyStillUsed`).

The request asks for `response_format={"type": "json_object"}`, which directs
the API to reply with a JSON object. The validation rejects everything but a
list, so a reply that honours that request ends in `[]`. The model does not
depend on this, because `parse` is unconstrained.

Behaviour of the code that the model follows exactly:

- The validation accepts only a bare list. One failing element empties the
  whole batch. Fences are not stripped. A `flashcards` wrapper is not
  unwrapped. No `topic` default is added.
- Python's `k in card` depends on the element's type. On a dict it tests the
  keys. On a string it tests for a substring, so a string element such as
  `"question and answer"` passes the check (`LlmService.StringElementPasses`).
  On a list it tests element equality. On a number, a boolean or `null` it
  raises `TypeError`, which also ends in `[]`.
- The suffix checks are case-sensitive, so `notes.TXT` is unsupported.
- Restoring the environment is not in a `finally` block. When the OpenAI
  constructor raises, the proxy variables stay removed.

## Model

| member | source | states |
|---|---|---|
| `ContentParser.ParseInputContent` | content_parser.py:19-47 | The dispatch table. Any input kind other than the two exact strings fails with InvalidInputType, whatever the other arguments are (iff). For direct paste, it succeeds iff the text is present and non-empty, and then returns it verbatim; otherwise it fails with NoTextProvided. For file upload, no file gives NoFileUploaded. A `.txt` name gives the decoding and a `.pdf` name the joined pages. The result is UnsupportedFileType iff the name has neither suffix. Each error comes only from its own branch. |
| `ContentParser.EndsWith` | content_parser.py:33-35 | `str.endswith` holds iff the name is some prefix followed by the suffix (exact and case-sensitive). |
| `ContentParser.TxtAndPdfExclusive` | content_parser.py:33-36 | No name ends in both `.txt` and `.pdf`, so the order of the two tests does not matter. |
| `ContentParser.UpperCaseSuffixUnsupported` | content_parser.py:33-38 | Any name ending in `.TXT` or `.PDF` is unsupported, whatever the file's bytes, the pasted text or the decoder. |
| `ContentParser.Message` | content_parser.py:38-47 | The four dispatcher errors carry the source's fixed ValueError texts. Exactly the decode and PDF-reader errors have none, because foreign code raises them. |
| `ContentParser.ForeignErrorsComeFromFiles` | content_parser.py:31-47 | A failure without a fixed message happens only for a file upload whose decoding or PDF reading failed. |
| `ContentParser.TxtUploadYieldsDecodedText` | content_parser.py:6-8 | A `.txt` upload whose bytes decode to `t` yields exactly `t`. |
| `ContentParser.LoadTextFromTxt` | content_parser.py:6-8 | Succeeds iff the UTF-8 decoding succeeds, and then returns the decoded text. A decode failure is the error DecodeFailed, not a result. |
| `ContentParser.PdfText` | content_parser.py:10-17 | What `load_text_from_pdf` returns, as the dispatcher uses it. It succeeds iff the reader opens the file, and then gives the joined page texts. Otherwise it fails with PdfUnreadable. |
| `ContentParser.LoadTextFromPdf` | content_parser.py:10-17 | The accumulation loop returns the in-order concatenation of the page texts (`ConcatPages`), with a missing text counting as `""`. It fails iff the reader cannot open the file. |
| `ContentParser.ConcatPagesAppend` | content_parser.py:13-16 | Joining two runs of pages gives the concatenation of their joined texts. |
| `ContentParser.PageInPlace` | content_parser.py:13-16 | Page `i`'s text sits between the joined texts of the pages before it and after it. |
| `ContentParser.NoTextPagesGiveEmpty` | content_parser.py:13-17 | A document with no pages, or with only textless pages, gives `""`. |
| `ContentParser.ConcatPagesLength` | content_parser.py:13-17 | The joined text's length is the sum of the page text lengths. |
| `JsonValue.Contains` | llm_service.py:114 | Python's `key in value` raises (None) iff the value is not a dict, a string or a list. |
| `JsonValue.IsSubstringIff` | llm_service.py:114 | The recursive substring test used for string elements holds iff the key occurs at some offset of the string. |
| `LlmService.AllKeysIn` | llm_service.py:114 | `all(k in card for k in keys)` is true iff every key's membership test is true. For a non-empty key list, it raises iff the first key's test raises. |
| `LlmService.IsCardMeaning` | llm_service.py:113-115 | An element passes iff it is a dict with both keys, a string with both words as substrings, or a list holding both words as elements. Numbers, booleans and null never pass. |
| `LlmService.PostProcess` | llm_service.py:108-120 | The result is `[]` or the whole reply list unchanged, with all elements passing. A list of passing elements is returned unchanged (same length, order and extra keys; an empty list gives `[]`). One failing element empties the batch. A parse or call failure, or a non-list reply, gives `[]`. |
| `LlmService.ParsedReply` | llm_service.py:106-108 | The parsed reply exists iff the call returned content and `json.loads` succeeded on it. It is then that parse result. |
| `LlmService.StringElementsPass` | llm_service.py:111-116 | A list of strings that each contain both words as substrings is accepted unchanged. |
| `LlmService.StringElementExample` | llm_service.py:111-116 | Example: the list `["question and answer"]` is accepted as it is. |
| `LlmService.NonContainerEmptiesBatch` | llm_service.py:113-120 | A null, boolean or number anywhere in the list makes the test raise `TypeError`, and the result is `[]`. |
| `LlmService.UserMessage` | llm_service.py:88-90 | The message starts with "Generate flashcards " and ends with the content verbatim. Without a subject (None or empty) its length is the fixed header plus the content. With a subject, the subject stands right after "for a ". |
| `LlmService.UserMessageDeterminesContent` | llm_service.py:88-90 | For one subject setting, equal messages mean equal contents. |
| `LlmService.UserMessageDeterminesSubject` | llm_service.py:89-90 | For one content, two non-empty subjects give the same message only if they are equal. |
| `LlmService.SubjectIsVisible` | llm_service.py:88-90 | A message with a subject never equals a message without one, whatever the contents. |
| `LlmService.BuildMessages` | llm_service.py:92-95 | Exactly two messages: the system prompt with role "system" first, then the user message with role "user". |
| `LlmService.LLMService.GenerateFlashcards` | llm_service.py:62-120 | The validation loop returns `PostProcess` of the parsed reply to the messages built from the content and the subject. |
| `LlmService.ProxySettings` | llm_service.py:16-30 | What a client built in an environment takes its proxy configuration from: exactly the variables whose lower-cased name ends in `_proxy` and whose value is non-empty, with their values. |
| `LlmService.HiddenVarsAreProxyVars` | llm_service.py:18-23 | Each of the six popped variables is one the proxy lookup reads. |
| `LlmService.HidingRemovesOnlyThose` | llm_service.py:18-30 | What the lookup sees after the pops is what it saw before, minus exactly the six popped variables. |
| `LlmService.AllProxyStillUsed` | llm_service.py:18-30 | Example: in the environment `{OPENAI_API_KEY: "k", ALL_PROXY: "http://p:3128"}`, the client still uses `ALL_PROXY`. |
| `LlmService.HasApiKey` | llm_service.py:12-13 | The key counts iff `OPENAI_API_KEY` is set and non-empty, as `if not api_key` tests it. |
| `LlmService.HideRestoreRoundTrip` | llm_service.py:18-23 | Hiding the six proxy variables and putting back the saved ones gives the environment back exactly. |
| `LlmService.HideProxyVars` | llm_service.py:18-23 | The six pops save each variable's value (None if it was absent) and remove exactly those six keys. |
| `LlmService.RestoreProxyVars` | llm_service.py:49-60 | The new environment is the old one with each saved variable put back. Variables that were absent stay absent. |
| `LlmService.LLMService.Create` | llm_service.py:11-60 | Fails with MissingApiKey iff the key is unset or empty, leaving the environment untouched. Succeeds iff the key is set and the OpenAI constructor completes. Then the environment is exactly as before and the client carries the key. The client's proxy configuration is the environment's, minus exactly the six popped variables. So the client sees none of the six, and every other proxy variable as it was. When the OpenAI constructor raises, the result is ClientInitFailed and the environment has lost exactly the six proxy variables. |
| `Environ.Lookup` | llm_service.py:12-23 | `os.getenv(key)` and the value `os.environ.pop(key, None)` returns: present iff the key is set, and then its value. |
| `Environ.Environment.Pop` | llm_service.py:18 | `os.environ.pop(key, None)` returns the old value (None if absent) and removes only that key. |
| `Environ.Environment.Set` | llm_service.py:50 | `os.environ[key] = value` updates only that key. |

## Left out

- The OpenAI, httpx and pypdf libraries, the network and `json.loads` are foreign code. Their outcomes are parameters (see above). Whether `httpx.Client()` fails is an input, and so is whether `OpenAI(...)` raises.
- `bytes.decode('utf-8')` is an abstract partial function. UTF-8 (RFC 3629) is not re-implemented, so "decoding the encoding of `t` gives `t`" is assumed about `decode` rather than proved.
- An exception raised by `extract_text()` on a single page is not modelled. Only the reader failing to open the file is.
- The wording of the system prompt is a constant with no logic. It is a parameter (`systemPrompt`).
- The model name, `temperature=0.7`, `load_dotenv` and the `print` logging have no logic and are left out. `response_format` is not passed to `complete`; its likely effect is noted above.
- The reason for an empty result (call failed, parse failed, not a list, a failing element) is not recorded. The source only prints it.
- JSON numbers are `real`. `NaN` and `Infinity`, which `json.loads` accepts, are not represented. Every number behaves the same in the membership test (it raises).
- A dict from `json.loads` is a `map`, so its key order is not represented. Membership and identity of the returned value do not depend on it.
- Reading the file object from its current position is not modelled. The file's bytes are the whole contents.
- `file_obj` is truthy whenever it is given, so an empty file counts as an uploaded file.
- ProxySettings: does not model the system proxy settings (macOS configuration, Windows registry) that the standard library falls back to when the environment names no proxy. It also leaves out which of several proxy variables wins (lower-case names over upper-case ones, the `REQUEST_METHOD` rule) and how httpx turns them into transports. It states only which environment entries the lookup reads. Lower-casing is ASCII, which agrees with Python's on the suffix `_proxy`.
- Concurrent observers of the process-wide environment during construction are not modelled.
- The CSV and JSON export and the Streamlit front end (`FlashCard Generator/app.py`, `flashcard_model.py`) are not part of this model. Neither is the second service variant (`FlashCard Generator/llm_service.py`).
