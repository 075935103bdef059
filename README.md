# Student Migration Analytics chat bot: the session history and question handling

This project models the bookkeeping core of the Student Migration Analytics
chat bot (`GlobalStudentImmigration.py`), a Streamlit page that answers
questions about a `global_student_migration` MySQL table by sending each
question through a LangChain SQL chain and then through an OpenAI chat model.

What is modelled:

- **The chat history** kept in the session state: an append-only list of
  `("You", question)` / `("Bot", answer)` entries (`Chat.Entry`), held by the
  class `Chat.ChatSession` together with the connection flag, the model and
  the chain built at start-up.
- **`process_question`** (`Chat.ChatSession.ProcessQuestion`, specified by the
  function `Chat.Exchange`): the exit phrases `exit`, `quit`, `bye`,
  `goodbye`, recognised after `lower()` and `strip()`, leave the history alone
  and consult nothing; any other question appends the user turn with the
  question's original text, then the bot turn with the answer.
- **The Clear Chat History button**, the form gate (`submitted and user_input`)
  and the stop when the database is not connected (`Chat.Step`, `Chat.Run`,
  `Chat.ChatSession.SubmitForm`). Clearing is handled in the sidebar, which is
  drawn before the page stops, so it works while disconnected too.
- **The "Questions Asked" / "Total Questions" metric**, `len(history) // 2`
  (`Chat.QuestionCount`), and the chat display loop that pairs the entry at
  each even position with the one after it (`Chat.DisplayPairs`).
- **`retrieve_from_db` and `generate_response`** (module `Pipeline`): the
  prompt of two messages (the fixed system instruction, then the
  `Input:/Context:/Output:` human template), and the two wrappers that turn
  every exception into a string with a fixed prefix.
- **Python's `str.lower()` and `str.strip()`** on ASCII (module `AsciiText`).

The SQL chain and the chat model are parameters: a `Pipeline.DbChain` maps the
question to either the chain's output dictionary or a raised exception's
message, and a `Pipeline.ChatModel` maps the message list to either the reply
content or a raised exception's message (`Outcomes.Outcome`). A chain output
without a `"result"` entry raises `KeyError` inside the same `try`, so
`retrieve_from_db` then reports `Error retrieving data: 'result'`, and
`Pipeline.RetrieveFromDb` does the same.

Proved about the model:

- the exit test is exactly "the trimmed question, lower-cased, is one of the
  four words", and any case and any surrounding whitespace is accepted;
- every sequence of form submissions and clears, from an empty history, keeps
  the history alternating: even length, `You` at even positions, `Bot` at odd
  ones;
- without a clear, each answered question adds exactly two entries at the end
  and one to the counter; under alternation the counter is the number of
  completed exchanges and the display shows every entry;
- while the database is disconnected the history is never extended;
- the model sees exactly one prompt, whose context is the retrieval output
  (the error report when the database step failed), and the question and
  context can be read back from it given the question's length; without that
  length they cannot, since the template does not escape its headers.

The source file has CRLF line endings; Python reads source with universal
newlines, so the line breaks inside the prompt strings are `\n`.

Two behaviours of the code worth stating plainly: the exit path shows UI
messages and returns `True` without adding any acknowledgment to the history
(the comment at line 117 leaves a separate exit state for later), and the
answer is not guaranteed to be non-empty (an empty model reply is passed
through verbatim; only the failure path always yields a non-empty apology).

The connection flag is fixed for a session. The "Retry Connection" button
(line 278) sets `initialized` to `False`, but start-up (line 244) only runs
when the `initialized` key is absent from the session state, so a retry never
calls `initialize_database` again and `db_connected` never changes. The model
keeps it as a constant field of `Chat.ChatSession`.

## Model

| member | source | states |
|---|---|---|
| AsciiText.IsSpace | GlobalStudentImmigration.py:113 | `isspace()` on ASCII, the set `strip()` removes: exactly space, tab, line feed, carriage return, vertical tab, form feed and the separators 0x1C-0x1F |
| AsciiText.LowerChar | GlobalStudentImmigration.py:113 | ASCII upper-case letters map to their lower-case letter (code point + 32); every other character is unchanged; no result is upper-case; whitespace stays whitespace |
| AsciiText.Lower | GlobalStudentImmigration.py:113 | `lower()` keeps the length and folds each character on its own |
| AsciiText.LeadingSpaces | GlobalStudentImmigration.py:113 | the count of leading characters is all whitespace and is followed by a non-whitespace character or the end |
| AsciiText.TrailingSpaces | GlobalStudentImmigration.py:113 | the count of trailing characters is all whitespace and is preceded by a non-whitespace character or the start |
| AsciiText.Strip | GlobalStudentImmigration.py:59 | `strip()` returns text with no whitespace at either end, no longer than the input, empty exactly when the input is all whitespace |
| AsciiText.StripSplits | GlobalStudentImmigration.py:113 | the input is whitespace, then the stripped text, then whitespace |
| AsciiText.StripUnique | GlobalStudentImmigration.py:113 | any trimmed text between two runs of whitespace is exactly what `strip()` returns |
| AsciiText.LowerStripCommute | GlobalStudentImmigration.py:113 | lower-casing then stripping equals stripping then lower-casing |
| Chat.IsExitCommand | GlobalStudentImmigration.py:113 | the test `question.lower().strip() in ["exit", "quit", "bye", "goodbye"]`; an exit question has at least three characters |
| Chat.ExitIsTrimmedWord | GlobalStudentImmigration.py:113 | a question is an exit exactly when its stripped text, lower-cased, is one of `exit`, `quit`, `bye`, `goodbye` |
| Chat.ExitPadded | GlobalStudentImmigration.py:113 | an exit word in any letter case with any surrounding whitespace is an exit |
| Chat.ByeIsExit | GlobalStudentImmigration.py:113-117 | "bye" is an exit |
| Chat.ExitWordsPrefixFree | GlobalStudentImmigration.py:113 | no exit word followed by further characters is another exit word |
| Chat.ExitWordWithSuffixIsNotExit | GlobalStudentImmigration.py:113 | an exit word in any case, after any whitespace and followed by any text that is not all whitespace ("bye bye ", "  quit?"), is not an exit: the whole trimmed text is compared |
| Chat.QuestionCount | GlobalStudentImmigration.py:171 | the counter is half the history length rounded down; on an alternating history it is exactly half |
| Chat.Exchange | GlobalStudentImmigration.py:108-151 | an exit leaves the history unchanged whatever the model and chain; otherwise the old history is kept as a prefix and exactly `("You", question)` with the untrimmed text and `("Bot", answer)` follow; alternation is preserved |
| Chat.AlternatingExtend | GlobalStudentImmigration.py:120-138 | appending a user turn then a bot turn keeps the history alternating |
| Chat.DisplayPairs | GlobalStudentImmigration.py:319-322 | the display loop shows as many pairs as the counter, pair k being the texts at positions 2k and 2k+1; a trailing unanswered entry is skipped |
| Chat.Step | GlobalStudentImmigration.py:370-371 | a clear empties the history; a submission that is not sent, is empty, or arrives while disconnected changes nothing |
| Chat.Run | GlobalStudentImmigration.py:184-185 | the history after a sequence of page runs (clears at 184-185, the stop at 266-281, submissions at 370-371); each run adds at most two entries |
| Chat.RunAlternating | GlobalStudentImmigration.py:263 | from an alternating history (the initial empty one included), any sequence of submissions and clears keeps the history alternating |
| Chat.RunCount | GlobalStudentImmigration.py:401 | without a clear the old history stays a prefix, each answered question adds two entries, and the counter grows by the number of answered questions |
| Chat.RunDisconnected | GlobalStudentImmigration.py:266-281 | while the database is disconnected the history is either unchanged or empty: no question is ever answered |
| Chat.ChatSession.constructor | GlobalStudentImmigration.py:261-263 | a new session starts with an empty, hence alternating, history |
| Chat.ChatSession.ProcessQuestion | GlobalStudentImmigration.py:108-151 | returns `True` and leaves the history as `Exchange` of the old history; alternation is preserved |
| Chat.ChatSession.Clear | GlobalStudentImmigration.py:184-185 | the history becomes empty |
| Chat.ChatSession.SubmitForm | GlobalStudentImmigration.py:370-371 | the history becomes `Step` of the old one for this submission: the question is processed only when connected, submitted and non-empty |
| Pipeline.RetrieveFromDb | GlobalStudentImmigration.py:55-61 | the chain's "result" stripped; when the chain raises, `Error retrieving data: ` followed by its message; when its output has no "result", `Error retrieving data: 'result'` (the `KeyError` text); the result is trimmed or carries the error prefix |
| Pipeline.BuildMessages | GlobalStudentImmigration.py:85-99 | two messages: the fixed system instruction, then a human message from which the question and context are read back given the question's length |
| Pipeline.HumanText | GlobalStudentImmigration.py:85-98 | the filled human template: starts with `Input:` and a line break, then the question verbatim, and ends with the `Output:` footer; 28 characters longer than question and context together |
| Pipeline.HumanRoundTrip | GlobalStudentImmigration.py:85-94 | reading the filled human template back with the question's length yields the question and the context |
| Pipeline.PromptAmbiguous | GlobalStudentImmigration.py:85-98 | for all texts a, b, c: the question a + header + b with context c fills the template exactly as the different pair (a, b + header + c) does |
| Pipeline.PromptFor | GlobalStudentImmigration.py:66-99 | the messages sent for a question: two, the system instruction first, then a human message carrying the question and the output of `retrieve_from_db` for it |
| Pipeline.GenerateResponse | GlobalStudentImmigration.py:63-105 | the model's reply to the prompt, verbatim, or the `Sorry, ...: ` apology followed by the exception's message |
| Pipeline.AnswerDependsOnlyOnPrompt | GlobalStudentImmigration.py:96-101 | two models that agree on the one prompt built from the question and the retrieval output give the same answer |
| Pipeline.DbFailureForwarded | GlobalStudentImmigration.py:58-66 | when the chain raises or its output has no "result", the model is still asked: the human message is the template filled with the question and the retrieval output, which is the `Error retrieving data: ` report |

## Left out

- Streamlit rendering (page config, sidebar, metrics, spinners, progress bars, balloons, expanders, `time.sleep`): presentation only; the model keeps the history state it touches.
- `initialize_database` (API key check, `ChatOpenAI` with temperature 0, `SQLDatabase.from_uri` with its table allow-list and two sample rows, `SQLDatabaseChain`): foreign library and network calls; their products are the constructor's parameters.
- SQL generation and execution, and whether answers are grounded in the data: done by the language model, not checkable.
- The "Retry Connection" button: it never re-runs start-up (see above), so it has no effect on the modelled state.
- Chat.ChatSession.ProcessQuestion: the `except` branch at lines 147-151 is not modelled; it fires only when a Streamlit call raises (`generate_response` itself never raises), so the method always returns `True` and never leaves an unanswered "You" entry.
- AsciiText.Lower: folds ASCII letters only; Unicode case mappings (including those that change length) are not modelled.
- AsciiText.Strip: strips ASCII whitespace only; Unicode whitespace such as U+00A0 or U+0085 is not modelled.
- Pipeline.DbChain and Pipeline.ChatModel: both are functions, so in the model the same question always gets the same retrieval and the same prompt the same reply; the real chain and model need not be deterministic. Nothing proved here relies on two calls agreeing.
- Pipeline.DbChain: the chain's "result" value is taken to be a string; a non-string value (whose `.strip()` would raise) is not modelled.
- The sample-question buttons, `selected_question` hand-off, "Show Database Info" and "Help": UI state that only pre-fills the text box or shows text.
