# Cancer-App chat handlers in Dafny

This project models the two Chainlit chatbots of Cancer-App. Each one turns a
question about a cancer dataset into pandas code with a language model, runs
that code, and reports the result.

- `cancer.py` keeps a conversation history, which it persists to a JSON file.
  It answers two reserved commands ("show conversation history" and "delete
  conversation history"). Any other message goes through a pipeline:
  1. generate the code;
  2. strip the code fences;
  3. store and show the code;
  4. `exec` it, capturing stdout;
  5. choose a result message;
  6. get a second analysis from a pandas agent;
  7. store and show the outcome.

  An `Exception` at any step is stored and shown as an error.
- `cancer_data_app.py` remembers only the last regular question. A message that
  complains ("wrong answer", "incorrect", "rectify") replays that question
  through the generator and the pandas agent, with "Corrected" wording.

The files:

- `outcomes.dfy`: `Option` and `Result`. A `Result` is either a value or the
  text of an exception that was raised.
- `pystr.dfy`: the Python string built-ins the handlers use, over `seq<char>`:
  - `strip()` with CPython's full whitespace set, and `strip(chars)`;
  - `lower()`;
  - the `in` test;
  - `replace(p, "")` and `re.sub` over alternatives, both as one left-to-right
    deletion scan;
  - `"sep".join`, and `f"{n}"` for naturals.
- `code_fence.dfy`: the Markdown fences, and the general fact that deleting
  every fence-led match leaves no fence behind.
- `cancer.dfy`: the cleaner, the result message, the history rendering and the
  `ChatSession` class for `main`.
- `cancer_data_app.dfy`: the cleaner, the complaint trigger, the `last_query`
  fold and the `ChatSession` class for `handle_message`.

The language model, `exec` (with its captured stdout) and the pandas agent are
function-valued parameters of the handlers. Each one returns either a value or
a raised exception. Chainlit messages are appended to an `outbox` sequence. The
JSON file is modelled as a ghost field `saved`, which holds the history as it
was last written.

## Model

| member | source | states |
|---|---|---|
| Cancer.CleanCode | cancer.py:195 | The cleaned code never contains a bare fence and has no leading or trailing whitespace. |
| Cancer.CleanCodeFixedPoints | cancer.py:195 | The cleaner leaves a string unchanged if and only if it holds no fence and is already trimmed. |
| Cancer.CleanCodeIdempotent | cancer.py:195 | Cleaning cleaned code changes nothing. |
| Cancer.DeleteOpeningFence | cancer.py:195 | An opening Python fence is removed as a whole by the `(?:python)?` alternative. |
| Cancer.DeleteClosingFence | cancer.py:195 | A fence-free body followed by a fence loses exactly that fence. Backticks at the end of the body merge with it, but only three are deleted. |
| Cancer.CleanCodeUnwrapsBlock | cancer.py:195 | A Python fence, a fence-free body and a closing fence clean to the body, stripped. |
| Cancer.CleanCodeUnwrapsPadded | cancer.py:195 | Code padded with whitespace inside a Python block cleans to exactly that code. |
| Cancer.CleanCodeDropsLanguageTag | cancer.py:195 | `"```python\nx\n```"` cleans to `"x"`. |
| CodeFence.NoFenceAfterDelete | cancer.py:195 | Deleting every match of patterns that all start with a fence, the bare fence among them, leaves no fence. This holds for the regex and for `replace`. |
| Cancer.ResultMessage | cancer.py:211-216 | No contract of its own. Its three cases are stated by `Cancer.ResultMessageCases`. |
| Cancer.ResultMessageCases | cancer.py:211-216 | There are three exclusive cases. A result, if set, wins and is carried verbatim. Otherwise non-blank output is carried stripped. Otherwise the message is the fixed text. |
| Cancer.ResultMessageIgnoresPadding | cancer.py:211-216 | Whitespace around the printed output does not change the message. |
| Cancer.ResultMessageIsNoError | cancer.py:211-216 | No result message starts with the error prefix of `main`. |
| Cancer.FormatHistory | cancer.py:169-173 | The `+=` loop builds the header followed by one block per stored turn, numbered from 1 in order, whatever the turn's role. |
| Cancer.HistoryGrows | cancer.py:170-173 | One more turn appends exactly its own block to the rendering. |
| Cancer.Classify | cancer.py:166-179 | No contract of its own. `Cancer.ClassifyIgnoresCaseAndPadding` states that it reads the message only through `lower()` and `strip()`, and `Cancer.ChatSession.Respond` states what each command does. |
| Cancer.ClassifyIgnoresCaseAndPadding | cancer.py:162-179 | Two messages that are equal once lower-cased and stripped select the same command, however their letter case and surrounding whitespace differ. |
| Cancer.RunQuery | cancer.py:186-226 | No contract of its own. `Cancer.RunQueryCode` states its cases. |
| Cancer.RunCode | cancer.py:196-226 | No contract of its own. `Cancer.RunQueryCode` and `Cancer.RunCodeAnswers` state its cases. |
| Cancer.RunQueryCode | cancer.py:186-226 | Generation fails exactly when the generator raises. Otherwise the code is the cleaned answer, fence-free and trimmed. The query is answered exactly when generation, `exec` and the agent all return. |
| Cancer.RunCodeAnswers | cancer.py:196-226 | After generation, the code turn and code message come before the outcome's turn and messages. |
| Cancer.AgentFailureDropsResult | cancer.py:208-222 | When the code ran but the agent raises, the result message already computed is neither stored nor sent; the error reply takes its place. |
| Cancer.QueryTurnsShape | cancer.py:163-232 | A regular query adds the user's turn and then assistant turns: 2 when generation fails, 3 otherwise. The last turn reports an error exactly when some step raised. On success the turns are the question, the code and the result message. |
| Cancer.ContextEndsWithQuery | cancer.py:191 | The context `main` passes to `llm_chain.run` joins all stored contents with newlines, in order, and ends with the current question. |
| Cancer.ShowKeepsSaved | cancer.py:163-177 | Appending a show request keeps the saved copy valid: it is a prefix of the history, followed only by show requests. |
| Cancer.ChatSession.constructor | cancer.py:27-39 | At start-up the history is the stored transcript, the saved copy equals it, and nothing has been sent. |
| Cancer.ChatSession.Save | cancer.py:34-36 | The saved copy becomes the in-memory history. Nothing else changes. |
| Cancer.ChatSession.Send | cancer.py:174 | Sending appends exactly one message. Nothing else changes. |
| Cancer.ChatSession.ReportError | cancer.py:228-233 | The error turn is appended and saved, and the same text is sent. |
| Cancer.ChatSession.ShowCode | cancer.py:196-199 | The cleaned code is appended as an assistant turn and saved, then sent inside a fence. |
| Cancer.ChatSession.ExecuteCode | cancer.py:201-233 | `exec` raising or the agent raising stores, saves and sends one error; the computed message is then lost. Otherwise the result message is stored and saved, then it and the agent's analysis are sent. |
| Cancer.ChatSession.AnswerQuery | cancer.py:186-233 | The `try` block adds the outcome's assistant turns and messages for the run on this prompt. The prompt holds the question, the preview and the joined history. The saved copy equals the history afterwards. |
| Cancer.ChatSession.ShowConversation | cancer.py:166-177 | The rendering of the whole history is sent. The history and the saved copy are untouched. |
| Cancer.ChatSession.ClearConversation | cancer.py:179-184 | The history and the saved copy are both empty, and the confirmation is sent. |
| Cancer.ChatSession.HandleMessage | cancer.py:157-233 | The stripped message is stored first. A show request renders that history, including the request, without saving. A delete request empties the history, the saved copy and the delete turn itself. A query adds the turns of its run and saves them. The persisted-copy invariant is kept in every case. |
| Cancer.ChatSession.Respond | cancer.py:163-233 | Once the message is stripped: the same three outcomes, and the same invariant. |
| PyStr.StripCharsFixedPoints | cancer_data_app.py:169 | `strip(chars)` leaves a string unchanged if and only if neither end is one of the chars. |
| PyStr.StripKeepsInnerMatches | cancer_data_app.py:138-139 | Stripping does not change whether a nonempty phrase without surrounding whitespace occurs. |
| PyStr.LowerStripCommute | cancer_data_app.py:138 | Lower-casing and stripping commute. |
| PyStr.DecimalRoundTrip | cancer.py:171 | The decimal rendering of a turn number reads back as that number. |
| CancerDataApp.CleanResponse | cancer_data_app.py:148 | The cleaned code never contains a bare fence and has no leading or trailing whitespace. |
| CancerDataApp.CleanResponseFixedPoints | cancer_data_app.py:169 | The cleaner leaves a string unchanged if and only if it holds no fence, is whitespace-trimmed, and neither starts nor ends with a backtick. |
| CancerDataApp.CleanResponseKeepsLanguageTag | cancer_data_app.py:169 | `"```python\nx\n```"` cleans to `"python\nx"`. The backtick strip removes the opening fence's backticks first, so the language tag is never replaced. |
| CancerDataApp.CleanResponseNotIdempotent | cancer_data_app.py:169 | `" `x`"` cleans to `` "`x" ``, and that cleans to `"x"`, so cleaning twice differs from cleaning once. |
| CancerDataApp.IsCorrectionTrigger | cancer_data_app.py:138-139 | No contract of its own. `CancerDataApp.TriggerIgnoresPadding` states when it fires. |
| CancerDataApp.TriggerIgnoresPadding | cancer_data_app.py:138-139 | The trigger fires exactly when the lower-cased message contains one of the three phrases anywhere. |
| CancerDataApp.TriggerIgnoresCase | cancer_data_app.py:138-139 | Messages that differ only in letter case trigger alike. |
| CancerDataApp.RunRequest | cancer_data_app.py:144-155 | No contract of its own. `CancerDataApp.RunRequestCode` states its cases. |
| CancerDataApp.RunAgent | cancer_data_app.py:154-155 | No contract of its own. `CancerDataApp.RunRequestCode` states its cases. |
| CancerDataApp.RunReplies | cancer_data_app.py:141-180 | No contract of its own. `CancerDataApp.RunRepliesShape` states its cases. |
| CancerDataApp.RunRequestCode | cancer_data_app.py:163-180 | Generation fails exactly when the generator raises. Otherwise the code is the cleaned answer, fence-free and trimmed. The run is answered exactly when the agent also returns. |
| CancerDataApp.GeneratedReplies | cancer_data_app.py:169-178 | Once the generator has answered, the code message comes before the agent's outcome. |
| CancerDataApp.RunRepliesShape | cancer_data_app.py:142-157 | One message is sent when generation fails, two otherwise. The last one carries the error prefix exactly when a step raised. Otherwise it carries the agent's result verbatim after its label. |
| CancerDataApp.NextLastQuery | cancer_data_app.py:139-164 | No contract of its own. `CancerDataApp.LastQueryAfterOne` and `CancerDataApp.LastQueryIsLatestRegular` state what the slot holds. |
| CancerDataApp.LastQueryAfterOne | cancer_data_app.py:139-164 | Over one message, the fold is the handler's update: a complaint keeps the slot, and anything else stores the raw message. |
| CancerDataApp.LastQueryIsLatestRegular | cancer_data_app.py:119-164 | After any conversation, the slot holds the latest message that was not a complaint, unstripped, or its start-up value if there is none. |
| CancerDataApp.ComplaintsKeepLastQuery | cancer_data_app.py:139-160 | A run of complaints leaves the slot unchanged. |
| CancerDataApp.Replies | cancer_data_app.py:139-180 | No contract of its own. `CancerDataApp.ChatSession.HandleMessage` states the messages of each branch. |
| CancerDataApp.ComplaintReplies | cancer_data_app.py:140-160 | No contract of its own. `CancerDataApp.ComplaintReplaysLatest` states its two cases. |
| CancerDataApp.ComplaintReplaysLatest | cancer_data_app.py:139-160 | A complaint replays the latest regular question after the apology, or sends only the no-previous-query message when there is none. |
| CancerDataApp.ChatSession.constructor | cancer_data_app.py:119 | The slot starts as None and nothing has been sent. |
| CancerDataApp.ChatSession.Send | cancer_data_app.py:172 | Sending appends exactly one message and leaves the slot alone. |
| CancerDataApp.ComplaintStep | cancer_data_app.py:138-160 | Proof step for `HandleMessage`: on a complaint the slot is kept and only the complaint's replies are sent. |
| CancerDataApp.RegularStep | cancer_data_app.py:162-180 | Proof step for `HandleMessage`: any other message is stored as received and answered by a regular run. |
| CancerDataApp.ChatSession.HandleMessage | cancer_data_app.py:136-180 | A complaint leaves the slot as it was. Anything else stores the raw message, even if generation or the agent fails. The messages sent are the apology and a correction run of the stored question, only the no-previous-query text, or a regular run of the message. |
| CancerDataApp.ChatSession.Reanalyze | cancer_data_app.py:140-160 | With a non-empty stored question: the apology, then a correction run of it. Otherwise: only the no-previous-query text. The slot is unchanged. |
| CancerDataApp.ChatSession.AskRegular | cancer_data_app.py:163-180 | The raw message is stored before anything can fail, then a regular run follows. |
| CancerDataApp.ChatSession.Analyze | cancer_data_app.py:163-180 | One pass sends the labelled error if generation raises. Otherwise it sends the code, then the labelled result or error. The slot is unchanged. |
| CancerDataApp.ChatSession.ShowAgentResult | cancer_data_app.py:175-180 | The agent's answer is sent under the result label, or its exception under the error label. |

## Left out

- The language model, `exec` with stdout capture, and the pandas agent are
  parameters that return a value or a raised exception. Their internals are
  foreign code and are not modelled. This includes the prompt templates, the
  API key and the `ConversationBufferMemory` the chains keep. Hidden state
  between calls is covered only because each call receives its own oracle.
  In `cancer.py` that memory's key is also `conversation_history`
  (cancer.py:52, 56, 110), the key under which `main` passes the joined
  history (cancer.py:191). Which of the two values fills the prompt is up to
  LangChain, so the model states only what `main` passes.
- `str(df.head())` is a constant string `preview`. Generated code runs with
  the live `df` in its globals (cancer.py:202) and may change it, so the real
  preview can differ between messages; the model does not track that.
  `str(result)` is taken as already rendered. CSV loading and the column
  rename are pandas behaviour.
- Exceptions outside `Exception`, such as the `SystemExit` that generated
  code raises by calling `exit()` or `sys.exit()`, escape the `except
  Exception` of both handlers (cancer.py:228, cancer_data_app.py:156, 179).
  `Result.Raised` stands only for an `Exception`. In `cancer.py` such an
  escape would leave the code turn stored and sent with no error turn after
  it. Calls that never return are not modelled either: the oracles are total
  functions, and the source sets no time-out on the generator, `exec` or the
  agent.
- JSON file I/O: the persisted file is the ghost field `saved`. A failed write
  and JSON round-tripping are not modelled.
- Chainlit event wiring, `async`/`await` and the welcome messages are UI. A
  failed send is not modelled.
- PyStr.Lower: only the ASCII letters A–Z are lowered. Python's `lower()` also
  maps other Unicode letters.
- Cancer.ChatSession.ShowConversation: the "No conversation history yet"
  reply is not modelled. The source appends the request before this test, so
  the history is never empty there and the reply can never be sent.
- Cancer.CleanCodeUnwrapsBlock: stated only for bodies that hold no fence. A
  fence inside the body is deleted too, so the body does not come back.
- In these places the code does not do what a reader might expect; the model
  follows the code:
  - a show request is stored but not saved, so the saved copy can lag the
    history by show requests;
  - show right after delete renders one block (the show request itself), not
    a "no history" notice;
  - the cleaner of `cancer_data_app.py` is not idempotent;
  - the cleaner of `cancer_data_app.py` keeps the language tag of a fenced
    answer: `"```python\nx\n```"` becomes `"python\nx"`, where `cancer.py`
    gives `"x"`;
  - in `cancer.py` an exception from the pandas agent (cancer.py:219-222),
    which only adds an optional analysis, discards the result message that
    was already computed: neither is stored or sent, only the error reply
    (`Cancer.AgentFailureDropsResult`).
