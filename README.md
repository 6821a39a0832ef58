# GitHubSentinel report generation front end, in Dafny

This project models the `LLM` class of GitHubSentinel (`src/llm.py`), the
component that turns a system prompt and raw repository activity text into a
progress report by asking one of two text-generation backends:

- "openai", a cloud chat-completion API reached through the OpenAI SDK;
- "ollama", a local inference server reached with one HTTP POST.

The backend is fixed when the object is built. Construction lower-cases the
configured kind and refuses anything but those two names. `generate_report`
builds a two-message chat request (system prompt first, user content second)
and hands it to the chosen backend, once, with no fallback and no retry.
The Ollama path reads `message.content` out of the decoded JSON reply and
rejects a missing or falsy one. The OpenAI path returns the first choice's
content.

Files:

- `wrappers.dfy`: `Option` and `Result`; a `Result` error stands for a raised exception.
- `json.dfy`: decoded JSON values (`Json`) and Python truthiness on them.
- `text.dfy`: `str.lower` on configuration strings, and which spellings lower-case to a given word.
- `llm.dfy`: the `LLM` class, the request and payload builders, the reply readers, and the properties of report generation.

The two transports are foreign. They are parameters of the report functions:

- `create` stands for `client.chat.completions.create`;
- `post` stands for `requests.post` followed by `response.json()`.

Each report generation returns an `Outcome`: the result (the report, or the
error raised) and the list of outbound calls made. That list is how the model
states "exactly one call, to the chosen backend".

Some behaviours of the code worth stating plainly:

- `generate_report` never inspects the user content; an empty one is sent like any other.
- A report need not be a non-empty string.
  - The OpenAI path returns the first choice's content as is, which may be empty or `None`.
  - The Ollama path returns any truthy JSON value found at `message.content`, not only a string.
  - Reports are therefore modelled as `Json` values.
- The Ollama path never reads the HTTP status code. A non-2xx reply
  with a truthy `message.content` is returned as the report.
- Failures are not wrapped in new error kinds. Transport exceptions are re-raised
  unchanged (`Transport(cause)`). A missing content is a `ValueError` (`InvalidResponse`).
  A decoded value that is not a dict where a dict is expected raises `AttributeError`
  (`NotAnObject`).

## Model

| member | source | states |
|---|---|---|
| `Text.Lower` | src/llm.py:14 | lower-casing keeps the length and maps every character through the ASCII letter lower-casing |
| `Text.LowerIsIff` | src/llm.py:14-17 | a string lower-cases to a lower-case word exactly when it spells that word with some letters in upper case (both directions) |
| `Llm.ResolveModel` | src/llm.py:14-21 | the kind is accepted iff it is a case variant of "openai" or "ollama"; on acceptance the model is the lower-cased kind and supported; otherwise the error is the unsupported-model error carrying the lower-cased kind |
| `Llm.KindExamples` | src/llm.py:14-21 | "OpenAI" gives "openai", "OLLAMA" gives "ollama"; "gpt-4", "" and "open ai" are refused |
| `Llm.LLM.New` | src/llm.py:7-21 | construction succeeds iff the kind is a case variant of "openai" or "ollama"; a built object is valid, keeps the config and has the lower-cased kind as model; otherwise the unsupported-model error is raised |
| `Llm.LLM.constructor` | src/llm.py:13-18 | the fields are set so that the object invariant holds: model is the resolved kind and only the chosen backend's handle (client or API URL) is set |
| `Llm.BuildMessages` | src/llm.py:31-34 | exactly two messages: role "system" with the system prompt verbatim, then role "user" with the user content verbatim |
| `Llm.MessagesToJson` | src/llm.py:31-34 | the JSON list of the messages has one dict per message, in the same order |
| `Llm.MessagesRoundTrip` | src/llm.py:74 | decoding the JSON form of the messages gives back the same messages in the same order |
| `Llm.OllamaPayload` | src/llm.py:72-78 | the payload is a dict with exactly the keys model, messages, max_tokens, temperature and stream |
| `Llm.OllamaPayloadRoundTrip` | src/llm.py:72-78 | a reader of the payload finds the configured Ollama model name, the same messages, max_tokens 4000, temperature 0.7 and stream false |
| `Llm.ExtractMessageContent` | src/llm.py:87-92 | succeeds iff the body is a dict whose "message" is a dict whose "content" is truthy, and then returns that content; otherwise fails with AttributeError exactly when a non-dict is met on the path, else with the invalid-response ValueError |
| `Llm.ExtractReplyRoundTrip` | src/llm.py:87-92 | an answer wrapped in a reply body comes back out exactly when it is truthy; a falsy one gives the invalid-response error |
| `Llm.ExtractionFailures` | src/llm.py:87-92 | whatever other keys the reply and its message carry: a missing "message", a missing "content", a null content and an empty-string content each give the invalid-response error |
| `Llm.ReadCompletion` | src/llm.py:58 | succeeds iff there is at least one choice, and returns the first choice's content (null when the SDK gives none); no choices is the IndexError |
| `Llm.FirstChoiceWins` | src/llm.py:58 | the first choice's content is the report whatever choices follow, and an empty content is returned rather than refused |
| `Llm.LLM.GenerateReportOpenAI` | src/llm.py:44-61 | exactly one completion call with the configured OpenAI model name and the messages; a transport error is returned unchanged, otherwise the result is the first-choice reading of the reply |
| `Llm.LLM.GenerateReportOllama` | src/llm.py:63-95 | exactly one POST of the Ollama payload to the configured URL; a transport error is returned unchanged, an undecodable body is a JSON error, otherwise the result is the content extraction of the decoded body, whatever the status; a success is truthy |
| `Llm.LLM.GenerateReport` | src/llm.py:23-42 | on a constructed object: exactly one outbound call, to the backend fixed at construction and carrying the two built messages; the result is that backend's; the unsupported-model branch is never reached |
| `Llm.NoFallback` | src/llm.py:37-42 | the transport of the backend not chosen has no influence on the outcome |
| `Llm.ErrorsPropagate` | src/llm.py:52-95 | for any transports: when the chosen backend's transport raises on the actual request, the caller gets that same error, never a report |
| `Llm.OllamaIgnoresStatus` | src/llm.py:80-89 | on the Ollama backend any reply body with a truthy `message.content`, whatever its other keys, gives that content as the report whatever the HTTP status code |
| `Llm.OpenAIReport` | src/llm.py:53-58 | on the OpenAI backend a completion whose first choice holds a text yields exactly that text, whatever choices follow |

## Left out

- The OpenAI SDK client (`OpenAI()`) and its `chat.completions.create` call, and `requests.post` with `response.json()`: foreign library and network code. The calls are function parameters; the client is an opaque handle. A failure of `OpenAI()` itself (for example a missing API key) is not modelled.
- Logging through `LOG`: a side effect with no bearing on results.
- Text.Lower: lower-cases the ASCII letters only, while Python's `str.lower` lower-cases all of Unicode. This changes only the text of the unsupported-model error for non-ASCII kinds. It never changes which kinds are accepted, because no non-ASCII character lower-cases to a single letter of "openai" or "ollama".
- The `temperature` float 0.7 is the exact decimal `JNumber(7, -1)`. Floating point is not modelled.
- Llm.ExtractMessageContent: a numeric content so small that Python's decoder rounds it to the float 0.0 (for example `1e-400`) is truthy in the model, which returns it, while the code finds it falsy and raises the invalid-response ValueError. `Json.Truthy` tests the exact decimal because float rounding is not modelled.
- JSON `NaN` and `Infinity`, which Python's decoder accepts, are not among the modelled values.
- No timeout or cancellation exists in the code, so none is modelled.
- The `__main__` demonstration block (src/llm.py:97-169) is sample data and a manual driver.
- src/gradio_server.py is user-interface wiring and is not part of this model.
