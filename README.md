# Blockchain RPC support agent: fault simulation and diagnosis pipeline

A Dafny model of the logic inside `app.py`, a Streamlit page. The page provokes a JSON-RPC error from a
blockchain node (`eth_estimateGas` with one of three prepared call objects) and records the error in the
session state. It then asks a text-generation model for a root-cause note and a customer reply, and
parses the model's output tolerantly.

The model is split into modules, one per component:

- `Text` (text.dfy) models the Python string operations the page relies on. `IsSpace` is the `\s` class of `re` on
  `str` patterns (the same set as `str.isspace`). `Contains` is `sub in s`. `Split` and `Join` are
  `s.split(sep)` and `sep.join(parts)` for a one-character separator, `Join` for a non-empty list.
- `Json` (json.dfy) models JSON values as Python holds them after decoding: `JNull` is `None` and objects are
  dicts. It also has `d.get(key)`, `type(v).__name__`, and `str()`/`repr()` (`Render`, `Repr`). An object
  prints as the dict `json.loads` builds from it: one entry per key, at the key's first position, with
  the value of its last pair.
- `Fence` (fence.dfy) models the regular expression `` ```(?:json)?\s*(\{.*?\})\s*``` `` under `re.DOTALL`.
  `MatchesAt(s, i, b, j)` describes every way the pattern can match: the fence at `i`, and group 1 as
  `s[b..j]`. `FirstMatch` picks the match `re.search` reports, with the leftmost start and, at that
  start, the shortest group. `Search` is a scanner proved to compute exactly that match.
- `ResponseParser` (parser.dfy) models `clean_json_output`. `json.loads` is left uninterpreted: it is the
  parameter `loads`, a total function. It returns the decoded value, the text of a `JSONDecodeError`, or
  the text of any other exception `json.loads` raises. Examples of the last are a `RecursionError` on deeply
  nested input and a `ValueError` on an integer literal longer than Python's digit limit. Only a
  `JSONDecodeError` moves on to the fence stage.
- `Diagnosis` (diagnosis.dfy) models the prompt template and `analyze_error`. The chat-completion call is the
  parameter `complete`, which maps a prompt pair to `Reply(content)` or `Failure(str(e))`.
- `Scenarios` (scenarios.dfy) models the scenario labels, the `params` table, the `if`/`elif` chain that binds
  `payload_params`, and the JSON-RPC envelope.
- `Simulator` (simulator.dfy) models the "Trigger Simulation" handler. It classifies the decoded reply and updates
  `st.session_state`, modelled as the class `Session` with a `map` field. The POST is the parameter
  `post`, whose result is `Received(body)` or `Raised(str(e))`.
- `Endpoint` (endpoint.dfy) models the "Connected to" caption, which is `rpc_input.split("/")[2]`.

The code is looser than its prompt text suggests:

- The parser does not check that a decoded reply is an object with exactly `root_cause` and
  `client_reply`. `analyze_error` returns any JSON value the parser accepts, unchanged.
- Nothing checks that a successful reply ends with a sign-off. The prompt asks the model to "Sign off
  simply as "Support Team"".
- The error code and message are read with `.get`. They can be any JSON value, or `None` when absent.
  They need not be an integer and a string.
- An unknown scenario label is not a configuration error. No branch binds `payload_params`, so the
  name stays unbound (`Dispatch` returns `None`).
- Some reply bodies make the handler raise inside its `try`, so they end as a network error. These are
  a number, a boolean or `null`; a list or string that mentions "error"; and an object whose "error"
  member is not an object.

## Model

| member | source | states |
|---|---|---|
| `Text.Contains` | app.py:102 | `sub in s` holds exactly when `sub` occurs at some index of `s` |
| `Text.Split` | app.py:104 | `s.split(sep)` has one more piece than `s` has separators, and no piece contains the separator |
| `Text.JoinSplit` | app.py:104 | joining the pieces of a split with the separator gives back the original text |
| `Text.JoinExtendFirst` | app.py:104 | extending the first piece by a character extends the joined text by that character in front |
| `Text.SplitJoin` | app.py:46-58 | splitting a join of separator-free lines gives back the lines |
| `Text.DoubledSeparatorSplitsThrice` | app.py:102-104 | a text containing `//` splits on `/` into at least three pieces |
| `Json.Get` | app.py:187-188 | `d.get(key)` is `None` for an absent key, and otherwise the value of the last pair carrying the key |
| `Json.NatToDecimal` | app.py:50 | `str()` of a natural number is decimal digits, with no leading zero, that denote the number |
| `Json.Render` | app.py:50-51 | `str()` leaves text as it is; `None`, `True` and `False` print as those words; a number prints the decimal digits of its value, non-empty and without a leading zero, after a minus sign when negative; `None`, booleans and numbers print on one line |
| `Json.FirstKeys` | app.py:50-51 | the keys of a decoded object are exactly the keys of its pairs, each listed once, in the order they first appear |
| `Json.DictItems` | app.py:50-51 | the dict built from an object's pairs has one entry per key, in the order the keys first appear, each holding the value `d.get` gives for that key |
| `Json.RepeatedKeyItems` | app.py:50 | the dict built from `{"a":1,"a":2}` has the single item `a: 2` |
| `Json.RepeatedKeyPrintsOnce` | app.py:50 | `{"a":1,"a":2}` prints as `{'a': 2}` |
| `Fence.OpeningUnique` | app.py:35 | at a given start the optional tag and the whitespace before `{` leave no choice, so the group's start is determined |
| `Fence.SkipSpace` | app.py:35 | the greedy `\s*` ends at the first non-whitespace character, having consumed only whitespace |
| `Fence.OpenAt` | app.py:35 | finds the brace exactly when the opening part of the pattern matches at that start |
| `Fence.CloseAt` | app.py:35 | holds exactly when `\s*` followed by a closing fence matches at that position |
| `Fence.BodyEnd` | app.py:35 | the lazy `.*?` stops at the first `}` followed by whitespace and a closing fence, and no valid group end lies before it |
| `Fence.SearchFrom` | app.py:35 | the scan returns a match no later start beats and, at its start, no shorter group beats; it returns none only when no start matches |
| `Fence.Search` | app.py:35 | `re.search` returns none exactly when the pattern matches nowhere, and otherwise the leftmost-start, shortest-group match |
| `Fence.FirstMatchUnique` | app.py:35 | only one match satisfies the leftmost-then-shortest rule |
| `Fence.GroupShape` | app.py:35-37 | the reported group starts with `{` and ends with `}`; before it are three backticks, an optional `json` and only whitespace; after it are only whitespace and three backticks |
| `Fence.SearchFinds` | app.py:35 | a match with no fence before it and no `}` inside its group except the last character is the one reported |
| `Fence.SampleObjectShape` | app.py:35 | the sample object opens and closes with a brace and holds no other `}`, so the lazy group cannot stop early |
| `Fence.TaggedReplyParts` | app.py:35-37 | the sample reply is a `json`-tagged opening fence and newline, the object, then a newline and the closing fence |
| `Fence.TaggedFenceExample` | app.py:35-37 | a `json`-tagged fence around `{"root_cause":"a","client_reply":"b"}` yields exactly that object as group 1 |
| `ResponseParser.CleanJsonOutput` | app.py:30-38 | text that decodes is returned unchanged, fenced or not; an exception of the first decode other than `JSONDecodeError` escapes at once; after a `JSONDecodeError` the first fenced group is decoded and any exception of that decode propagates; with no fence it raises `ValueError("AI did not return valid JSON.")` |
| `ResponseParser.ParseFailsOnlyWhenBothStagesFail` | app.py:32-38 | the parser raises exactly when the whole text fails to decode, and either that failure is not a `JSONDecodeError` or the first fenced group, if any, fails too |
| `ResponseParser.NoBacktickNoFence` | app.py:35 | a text without a backtick holds no fenced block |
| `ResponseParser.PlainTextRaisesValueError` | app.py:38 | `"not json at all"` raises `ValueError` with the fixed message |
| `ResponseParser.TaggedReplyParses` | app.py:32-37 | a reply that is a `json`-tagged fence around an object decodes to that object |
| `ResponseParser.RaisedSkipsFence` | app.py:32-34 | when decoding the whole reply raises something other than `JSONDecodeError`, that exception escapes although the reply holds a fenced object |
| `Diagnosis.UserPrompt` | app.py:46-58 | when no substituted value spans lines, the user prompt read line by line is the fixed template with endpoint, method, code and message each on its own labelled line, in that order |
| `Diagnosis.BuildPrompt` | app.py:45-58 | the system message is fixed; whenever endpoint, method, `str()` of the code and `str()` of the message are each one line, the user prompt's lines are the template filled with them; in particular for a code that is a number, a boolean or `None` and a one-line string message |
| `Diagnosis.MissingMessagePrintsNone` | app.py:51 | an error whose message is `None` shows the line `Error Message: "None"` |
| `Diagnosis.Degraded` | app.py:72-76 | the fallback dictionary has `root_cause` "AI Processing Failed" and `client_reply` "System Error: " followed by the exception text; both fields are present and non-empty |
| `Diagnosis.AnalyzeError` | app.py:41-76 | never raises; a model failure gives the fallback with its message; a decodable reply is returned unmodified; another exception than `JSONDecodeError` while decoding the reply gives the fallback with its text; no fence gives the fallback with the `ValueError` text; otherwise the first fenced group decides |
| `Diagnosis.AnalyzeResultOrigin` | app.py:60-76 | every result is the fallback dictionary or a value decoded from the reply, either the whole text or its first fenced group |
| `Scenarios.FirstKey` | app.py:135-167 | finds the first scenario key, in branch order, that occurs in the label, and none when no key occurs |
| `Scenarios.Dispatch` | app.py:135-167 | the table gives the `params` of the first key found in the label, and nothing exactly when no key occurs |
| `Scenarios.ChooseParams` | app.py:135-167 | the `if`/`elif` chain binds `payload_params` exactly as the table lookup does |
| `Scenarios.OccurrenceChars` | app.py:135-157 | every character of an occurring substring is a character of the text |
| `Scenarios.ExecutionRevertedKeys` | app.py:128-146 | the "Execution Reverted" label contains its own key and neither of the others |
| `Scenarios.InsufficientFundsKeys` | app.py:129-157 | the "Insufficient Funds" label contains its own key and neither of the others |
| `Scenarios.IntrinsicGasKeys` | app.py:130-157 | the "Intrinsic Gas" label contains its own key and neither of the others |
| `Scenarios.LabelSelectsOwnScenario` | app.py:125-167 | each of the three labels selects exactly one branch, the `params` of its own row |
| `Scenarios.Envelope` | app.py:174-179 | every request has `jsonrpc` "2.0", `method` "eth_estimateGas", the chosen `params` and `id` 1 |
| `Simulator.MentionsError` | app.py:185 | `"error" in data` is a key test on an object and raises on a number, a boolean or `None` |
| `Simulator.Classify` | app.py:181-204 | a reply is a JSON-RPC error exactly when it is an object whose "error" member is an object, and then carries that member's `.get("code")` and `.get("message")`; it is a success exactly when it does not mention "error"; a transport exception is a network error carrying its text |
| `Simulator.InsufficientFundsReply` | app.py:185-188 | `{"error": {"code": -32000, "message": "insufficient funds"}}` is classified as that error |
| `Simulator.Session.ActiveError` | app.py:210-211 | an active error is available exactly when the session holds "active_error" |
| `Simulator.Session.TriggerSimulation` | app.py:172-204 | the handler's outcome is the classification of the reply; on a JSON-RPC error it stores the (code, message) pair and the raw body; on any other outcome the session is unchanged |
| `Endpoint.ConnectedDomain` | app.py:102-107 | a domain is shown exactly when the input contains `//`; the third piece of the split always exists, and it holds no `/` |
| `Endpoint.HostIsThirdPiece` | app.py:104 | splitting `scheme//host` plus a path on `/` gives the host as the third piece |
| `Endpoint.UrlHasDoubleSlash` | app.py:102 | `scheme//host` plus a path contains `//` |
| `Endpoint.UrlHostIsDomain` | app.py:102-105 | for `scheme//host` followed by nothing or a path, the caption shows the host |

## Left out

- Streamlit widgets, layout, captions, status boxes, spinners and the info texts of each scenario are
  presentation only.
- Re-running `analyze_error` on every re-render while an error is active is an artefact of Streamlit's
  execution model. The model gives `ActiveError`, which is what that code reads.
- The network is not modelled. The POST (single attempt, 5-second timeout) and `response.json()` are
  the parameter `post`; their outcome is an input.
- The OpenAI client is not modelled, including its construction from the API key outside the `try`. The
  chat-completion call, its model identifier, JSON-object mode, `max_tokens=400` and
  `temperature=0.3` are folded into the parameter `complete`. A reply whose content is `None` makes
  `json.loads` raise `TypeError`, which `analyze_error` catches like any other exception. The model
  folds it into `Failure`.
- The internals of `json.loads` are not modelled. It is the parameter `loads`. JSON numbers are
  integers only; floating point is left out.
- Configuration is not modelled: `load_dotenv`, environment lookups, the default endpoint and the
  missing-key stop.
- `Repr` quotes text with single quotes and does not reproduce Python's choice of quote character or
  its escapes. This affects only the prompt text for an error code or message that is a list or a
  dict.
- The exact wording of the `TypeError` and `AttributeError` messages that end a simulation as a
  network error is not modelled. `Fault` records their kind and the Python type name.
