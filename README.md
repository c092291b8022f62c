# Finance chat assistant: session state machine

This project models the session state of a Streamlit chat page in Dafny. The page asks a
language model to clarify a user's finance question, one follow-up at a time, before a
SQL query is written. The state lives in `st.session_state` and has six keys:

- `messages`, the transcript;
- `waiting_for_input`;
- `current_question`;
- `conversation_ended`;
- `follow_up_options`;
- `knowledge_graph`, a dictionary from jargon terms to the meanings the user gave them.

Each Streamlit run executes the handlers that change this state:

- initialisation-if-absent;
- the "Reset Knowledge Graph" and "Start New Conversation" buttons;
- the Submit button;
- the dispatch on the action the model picks.

The language model is an untrusted oracle. The first call's outcome is a closed `Action`
datatype (`AskUser`, `AskForFollowup`, `StopProcessing`, `UnknownName`, `CallFailed`). The
summary call inside `stop_processing` is an `Option<string>`, where `None` means the call
failed. Given these inputs, every transition is deterministic.

Files:

- `wrappers.dfy`: module `Wrappers`, an `Option` type with `GetOr` (Python's
  `dict.get(key, default)`).
- `knowledge_graph.dfy`: module `KnowledgeGraph`. It holds `Merged`, the function that
  specifies the merge loop of `stop_processing`, and lemmas on the three merge rules and
  on what happens at a malformed piece.
- `answer.dfy`: module `Answer`, the pure rule that turns the options, the radio choice and
  the free text into the recorded answer.
- `session_state.dfy`: module `SessionState`. Its class `Session` has one field per
  session key, plus `present`, the set of keys stored so far. Its methods are the
  handlers. `Valid()` is the session invariant. It says the reachable key sets are {},
  {knowledge graph} and all keys. Once the transcript exists, it starts with the
  instructions message and then a knowledge-graph snapshot. Ended and waiting are never
  both true. Options are only kept while waiting for input.

The code and the application's own stated intent disagree in one place, and the model
follows the code. The prompt and the tool description ask that jargon terms be added
case-insensitively, without repeats (main.py:71, main.py:118). The code overwrites by
exact key, so "X" and "x" both end up in the graph (`CaseVariantsCoexist`).

Three further consequences of the code are proved:

- A malformed knowledge piece skips all the pieces after it, not just itself, because the
  `try` surrounds the whole loop (`MergedStopsAtMalformed`).
- A listed option spelled "Other" cannot be recorded as itself (`OtherOptionShadowed`).
- "Reset Knowledge Graph" does not re-render the snapshot already in the transcript
  (`ResetKnowledgeGraph` leaves `messages` unchanged).

## Model

| member | source | states |
|---|---|---|
| `KnowledgeGraph.Merged` | main.py:200-204 | each well-formed piece in turn overwrites the entry for its exact jargon string and the first malformed piece ends the merge; no existing key is ever removed |
| `KnowledgeGraph.GoodPrefix` | main.py:200-204 | the number of pieces the loop writes is the length of the longest prefix of well-formed pieces: every piece before it is well formed, and the piece at it (if any) is not |
| `KnowledgeGraph.MergedEntry` | main.py:201-202 | a written piece that no later written piece overrides leaves its jargon mapped to its value, so each key holds the value of the last piece naming it and a later duplicate wins |
| `KnowledgeGraph.MergedUntouched` | main.py:201-202 | a key that no written piece names exactly keeps its old value, or stays absent |
| `KnowledgeGraph.MergedKeys` | main.py:201-202 | every key after the merge was there before or is named by a written piece |
| `KnowledgeGraph.MergedStopsAtMalformed` | main.py:200-204 | at the first malformed piece the merge ends without raising: the pieces before it are all written and it and every later one are skipped |
| `KnowledgeGraph.CaseVariantsCoexist` | main.py:201-202 | keys are compared exactly: merging "x" into a graph holding "X" keeps two keys that are equal up to case |
| `Answer.Offered` | main.py:217 | the truthiness test `if options:`: options are offered exactly when they are present and non-empty |
| `Answer.RadioEntries` | main.py:218-221 | the radio lists every option and the "Other" label, and nothing else |
| `Answer.Select` | main.py:215-227 | with options offered, a listed choice other than "Other" is recorded and "Other" records the free text; with no or empty options the free text is recorded; the result is always the free text or the choice |
| `Answer.SelectFromRadio` | main.py:217-225 | a choice made on the radio (an option or "Other") records the free text or one of the listed options, never the "Other" label itself |
| `Answer.OtherOptionShadowed` | main.py:218-223 | for any options list containing "Other", choosing that label records the free text, so a radio choice records "Other" only when the free text is "Other" |
| `SessionState.FinalQuestion` | main.py:205-212 | what `stop_processing` returns: the rendered summary, or the fixed error text when the summary call failed |
| `SessionState.Session.InitialiseGraphIfAbsent` | main.py:9-10 | an empty graph is stored only when no graph is stored; nothing else changes |
| `SessionState.Session.InitialiseIfAbsent` | main.py:229-242 | afterwards every key is stored; a key already present keeps its value; a missing transcript starts as the instructions plus a snapshot of the current graph; missing flags are false, the question is the default, options are absent |
| `SessionState.Session.ResetKnowledgeGraph` | main.py:14-15 | the graph becomes empty; the transcript, including its old snapshot, and every other field are unchanged |
| `SessionState.Session.ResetConversation` | main.py:18-26 | the transcript is exactly the instructions and a snapshot of the current graph; both flags are false; the question is the default; the graph is unchanged |
| `SessionState.Session.Submit` | main.py:254-265 | while waiting for input, with a choice taken from the radio entries, exactly two entries are appended, the pending question as assistant and then the selected answer as user; waiting is cleared and the options become absent; the graph, the ended flag and the question are unchanged |
| `SessionState.Session.StopProcessing` | main.py:184-212 | the summarise prompt is appended as user; the graph becomes the merge of the pieces into the old graph; the result is the summary, or the fixed error text when the summary call failed |
| `SessionState.Session.Dispatch` | main.py:266-306 | stop appends the summarise prompt and the final question, merges the pieces and ends the conversation, even when the summary failed; follow-up sets the given question (or the default) and options and waits; ask-user sets the default question and waits; an unknown name or a failed call changes nothing; the invariant is kept |
| `SessionState.ScriptedConversation` | main.py:284-302 | the sequence first question, answer, follow-up with options A and B, answer, stop with X -> Y ends the conversation with an eight-entry transcript and the graph {X: Y} |

## Left out

- Streamlit rendering is not modelled: titles, the chat-history display, the sidebar graph
  editor, widgets and `st.experimental_rerun`. Each handler is an explicit method call,
  and the radio choice and text fields are parameters of `Submit`.
- The API-key field, the OpenAI client and both `chat.completions.create` calls are
  foreign network calls. They appear only as an `Action` and an `Option<string>` oracle
  input.
- The prompt texts and the tool JSON schemas are static prose with no behaviour. They are
  symbolic `Content` constructors (`Instructions`, `SummaryRequest`).
- The `str.format` rendering of the graph into the second system message is not modelled
  as text. That message carries the graph it was rendered from (`GraphSnapshot`).
- The `json.dumps` of the summary is not modelled: the oracle supplies the rendered text.
- Logging and the unused `numpy` import are left out.
- Dispatch: arguments of the wrong JSON type (a `null` question, options that are not a
  list of strings) are not modelled, because the `Action` fields are typed.
- `Piece`: a field that is present but of a non-string type (a number as jargon) has no
  counterpart. A piece is either well formed, with two strings, or malformed.
- The insertion order of the knowledge graph is not kept. A Python dict remembers it, and
  it shows in the rendered snapshot (main.py:20-22, 231-233) and in the sidebar
  (main.py:35); a Dafny `map` has no order.
- Submit: requires waiting for input and a choice among the radio entries, because its
  button is shown only then (main.py:254-258) and `st.radio` returns one of its entries.
- ResetConversation: requires the conversation to have ended, because its only caller
  (main.py:248-252) is shown only then.
- Dispatch: requires both flags to be false, because it runs only in the `else` branch of
  main.py:248-266.
- There is no concurrency: each session is one sequential thread of control.
