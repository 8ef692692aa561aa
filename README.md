# AI Math Interviewer: the interview turn state machine

The application is a chat front end. It interviews an elementary teacher,
first about multidigit multiplication and then about multidigit division.
Under its user interface sits a small deterministic state machine. A session
holds:

- the message list;
- an interview stage (`introduction`, `ready_to_start`, `multiplication`,
  `division`);
- two question counters;
- a report slot with its `report_generated` flag.

A respondent message then does the following, in order:

1. appends the user turn;
2. auto-saves when the new length is a multiple of 4;
3. tests whether the switch to division is due;
4. answers with one of three fixed texts, or delegates to the language model;
5. appends the answer;
6. updates the counters.

The report button is gated at six messages. The new-session button saves the
old session when it has more than two messages.

The project has four modules:

- `Transcript` (`transcript.dfy`) holds messages and the two message-list
  builders:
  - the report transcript (`ROLE: content` entries joined by blank lines);
  - the request window (the system prompt, then the last 20 messages), built
    by a loop as the handler builds it.
- `Interview` (`interview.dfy`) holds:
  - the session state as a value;
  - the turn (`Turn`, split into the user append and `Answer`);
  - the length thresholds;
  - the report prompt and the reset;
  - `Invariant`, which every reachable session keeps. Messages alternate
    assistant/user from the welcome, the fixed texts stand at their
    positions, and stage and counters are functions of the number of turns
    submitted.
- `Sessions` (`session.dfy`) holds the session as a `class Session`. Its
  fields are updated in place by `Submit`, `GenerateReport` and `NewSession`.
  Each method is proved to produce exactly the state a pure `Interview`
  function describes, and to keep `Invariant`: `Submit` matches
  `Interview.Turn`, `GenerateReport` matches `Interview.GenerateReport`, and
  `NewSession` matches `Interview.NewSession`.
- `InterviewProperties` (`properties.dfy`) holds the properties of single
  turns and of whole runs of turns from a fresh session.

The language model call is a parameter of the turn: a `Reply`, which is
either `Completed(text)` (the streamed text) or `Failed(error)` (the
exception text). The clock readings are parameters too: the
conversation id and the report timestamp. Under these parameters the
machine is a total function.

The model follows the code, including three behaviours a reader may not expect:

- a failed model call still counts the turn as a question;
- the opening multiplication question is counted twice. The branch sets the
  counter to 1, and the shared update after the branch makes it 2;
- no `done` stage exists. The comment at streamlit_app.py:132 mentions one,
  but no code reaches it.

In a fresh session this gives a fixed schedule. After `t` turns:

| t | stage | multiplication count | division count |
|---|---|---|---|
| 0 | introduction | 0 | 0 |
| 1 | ready_to_start | 0 | 0 |
| 2..5 | multiplication | t | 0 |
| 6 and more | division | 5 | t − 5 |

The division switch fires on the sixth turn, and its text is message 12
(counting from 0).

## Model

| member | source | states |
|---|---|---|
| Transcript.UpperChar | streamlit_app.py:58 | upper-casing of the ASCII role names, one character at a time: a–z map to A–Z, every other character is kept |
| Transcript.Upper | streamlit_app.py:58 | upper-casing of the ASCII role names keeps the length and maps every character by `UpperChar` |
| Transcript.Lines | streamlit_app.py:57-60 | the comprehension has one `ROLE: content` entry per message, in message order |
| Transcript.LineOfRole | streamlit_app.py:58 | a user entry reads `USER: c` and an assistant entry reads `ASSISTANT: c` |
| Transcript.JoinSnoc | streamlit_app.py:57 | joining one more part adds exactly one separator and that part at the end |
| Transcript.TextSnoc | streamlit_app.py:57-60 | the transcript of one more message is the old transcript, a blank line and the new entry |
| Transcript.TextSingle | streamlit_app.py:57-60 | the transcript of a single message is its entry alone, with no separator |
| Transcript.TextPrefix | streamlit_app.py:57-60 | the transcript of any non-empty prefix of the messages is a prefix of the full transcript, so entries keep message order |
| Transcript.Recent | streamlit_app.py:334 | `messages[-20:]` holds min(20, n) messages and is the suffix of the history of that length |
| Transcript.BuildRequest | streamlit_app.py:333-335 | the loop builds the system message followed by the last min(20, n) messages, role and content copied in order |
| Interview.ParseStage | streamlit_app.py:109 | a stage string that parses names the stage it parses to |
| Interview.StageNameRoundTrip | streamlit_app.py:109 | every stage's saved name parses back to that stage |
| Interview.Record | streamlit_app.py:105-112 | the saved record carries the session id, the messages, a stage name that parses back to the stage, and both counters |
| Interview.ReportGate | streamlit_app.py:220-224 | the report is offered iff there are at least 6 messages; otherwise a positive remaining count that adds up to 6 is shown |
| Interview.Turn | streamlit_app.py:270-358 | a turn adds exactly two messages: the user turn at the old length, then an assistant turn. Earlier messages, the id and the report slot are unchanged |
| Interview.Answer | streamlit_app.py:286-358 | one assistant message is appended and earlier ones kept. Introduction: the self-introduction text, stage ready_to_start, counters kept. ready_to_start: the opening question, stage multiplication, multiplication count 2. Switch: the division text, stage division, division count 1, multiplication count kept. Delegated: the reply text or the error text, stage kept, one more question on the current stage's counter |
| Interview.ReportPrompt | streamlit_app.py:62-82 | the report prompt is the fixed heading, then the transcript, then the fixed section list, then the footer with the timestamp and the session id, each at its position |
| Interview.GenerateReport | streamlit_app.py:220-232 | below the gate the session is unchanged; at the gate the report text, or its error text on failure, is stored and the flag is set |
| Interview.NewSession | streamlit_app.py:191-195 | reset yields a fresh session under the new id, and saves the old session's record iff it had more than 2 messages |
| Interview.InitialInvariant | streamlit_app.py:122-147 | a fresh session (welcome only, introduction, counters 0, no report) is reachable-shaped and on schedule |
| Interview.TransitionTurn | streamlit_app.py:281-284 | on a reachable session, `insert_transition` holds exactly on the sixth turn (5 turns submitted) |
| Interview.AppendTurnShape | streamlit_app.py:274-352 | appending a user turn and the answer the script prescribes at that position keeps the alternation and the fixed texts in place |
| Interview.ScheduledTurn | streamlit_app.py:290-358 | from an on-schedule state, a turn moves the stage and counters to their values one turn later, and the fixed branches fire on turns 1, 2 and 6 |
| Interview.TurnKeepsInvariant | streamlit_app.py:270-358 | every turn keeps the reachable-session invariant and counts one more turn |
| Interview.GenerateReportKeepsInvariant | streamlit_app.py:226-232 | generating a report keeps the invariant, including "a report is stored only past the gate" |
| Sessions.Session.constructor | streamlit_app.py:122-147 | start-up: only the welcome message, stage introduction, both counters 0, no report, and the invariant holds |
| Sessions.Session.Snapshot | streamlit_app.py:105-112 | the auto-saved fields are the record of the current state |
| Sessions.Session.Submit | streamlit_app.py:270-358 | updating the fields in place produces exactly `Turn` of the old state, returns the auto-save record due and the model request, and keeps the invariant |
| Sessions.Session.AppendUserTurn | streamlit_app.py:274-278 | the user turn is appended, and the snapshot is taken iff the new length is a multiple of 4 |
| Sessions.Session.TransitionDue | streamlit_app.py:281-284 | the nested test computes `InsertTransition` of the current state |
| Sessions.Session.Respond | streamlit_app.py:290-349 | the branch gives the fixed text, stage and counter assignments of its action; only the delegated branch builds a request, and its answer is the reply text or the error text |
| Sessions.Session.AnswerTurn | streamlit_app.py:280-358 | the answer part of the turn produces exactly `Answer` of the state after the user append, and delegates only when `Decide` says so |
| Sessions.Session.CountTurn | streamlit_app.py:354-358 | the shared counter update on the stage the branch left |
| Sessions.Session.GenerateReport | streamlit_app.py:220-232 | produces `Interview.GenerateReport` in place, returns the gate and the report request when offered, and keeps the invariant |
| Sessions.Session.NewSession | streamlit_app.py:191-195 | the save is taken iff more than 2 messages, then the fields are reset to a fresh session under the new id; keeps the invariant |
| InterviewProperties.StageAdvancesAtMostOneStep | streamlit_app.py:290-329 | from any state, a turn moves the stage forward by at most one step, and division is never left |
| InterviewProperties.DivisionTransitionRule | streamlit_app.py:281-329 | the switch is taken iff multiplication, count ≥ 5 and no division question. It then appends the fixed division text, enters division with one division question, keeps the multiplication count, and asks the model nothing |
| InterviewProperties.CounterRule | streamlit_app.py:354-358 | the counter rule for every turn, including the opening turn (count 2) and a failed model call |
| InterviewProperties.ReplyOnlyShapesText | streamlit_app.py:338-352 | success and failure of the model call give the same stage, counters and earlier messages; the answer is the text, or `❌ Error: ` followed by the error |
| InterviewProperties.DelegatedRequest | streamlit_app.py:331-335 | the model is asked iff the turn delegates, with the system message, then the last min(20, n+1) messages ending in the new user turn |
| InterviewProperties.AutoSaveEveryOtherTurn | streamlit_app.py:276-278 | on reachable sessions auto-save fires iff an odd number of turns was submitted before, and saves the state with the user turn and the old counters |
| InterviewProperties.EvenLengthCadence | streamlit_app.py:277 | 2t+2 is a multiple of 4 iff t is odd |
| InterviewProperties.ReportOfferedAfterThreeTurns | streamlit_app.py:220-224 | on reachable sessions the report is offered iff at least three turns were submitted |
| InterviewProperties.ResetSavesAfterFirstTurn | streamlit_app.py:192-193 | on reachable sessions reset saves iff the interview is past the introduction stage |
| InterviewProperties.RunAppends | streamlit_app.py:274-352 | any run of k turns adds exactly 2k messages and keeps all earlier ones |
| InterviewProperties.RunKeepsInvariant | streamlit_app.py:270-358 | any run of turns from a reachable session stays reachable |
| InterviewProperties.DivisionIsFinal | streamlit_app.py:327-358 | once in division, no later turn leaves it, changes the multiplication count or takes the switch |
| InterviewProperties.TransitionAtMostOnce | streamlit_app.py:281-329 | from any state whatsoever, the switch fires at most once in any run |
| InterviewProperties.TransitionOnSixthTurn | streamlit_app.py:281-329 | from a reachable session, the switch fires exactly once if the run crosses the sixth turn, and never otherwise |
| InterviewProperties.FreshSessionSchedule | streamlit_app.py:270-358 | after t turns of a fresh session: 1+2t messages, stage and counters as in the schedule above, and the division text at message 12 from the sixth turn on |
| InterviewProperties.FreshSessionSwitchesOnce | streamlit_app.py:281-329 | a fresh session takes the switch once if it reaches the sixth turn, and never otherwise |
| InterviewProperties.ReachableSchedule | streamlit_app.py:270-358 | every reachable session has 1+2t messages, the scheduled stage and counters, and the division text in place after the switch |
| InterviewProperties.CountersMonotone | streamlit_app.py:354-358 | on reachable sessions the counters never decrease, the division count is 0 before division, and the multiplication count is frozen inside it |
| InterviewProperties.TranscriptOfTurn | streamlit_app.py:57-60 | a turn extends the report transcript by the user entry and the assistant entry, each after a blank line |

## Left out

- Streamlit rendering, the sidebar, `st.rerun` and the page lifecycle are user interface.
  - The sidebar's status lines are not modelled.
  - The report and chat download buttons and their visibility are not modelled.
  - The "How to Use" text is not modelled.
- Sessions.Session.Submit: requires a non-empty prompt, because the handler runs only when `st.chat_input` returns a truthy string (streamlit_app.py:270); an empty input changes nothing, and the model does not represent that non-event. The pure `Interview.Turn` and the run lemmas accept any string, including the empty one the application never passes.
- Interview.GenerateReport: the report call's content (streamlit_app.py:94) is assumed to be a string. The client types it as optional; a `None` content would store `current_report = None` with `report_generated = True` (streamlit_app.py:229-230), which the model does not capture, and the `ReportSlot` invariant conjunct `reportGenerated <==> report.Some?` relies on this assumption.
- The language model client (streamlit_app.py:84-96, 339-346) is a foreign call.
  - Each call is the `Reply` parameter.
  - The streamed answer is assumed to be a string.
  - The model name, temperature and token limits are not modelled.
- File I/O of `auto_save` and the download payload (streamlit_app.py:101-117, 199-213) is left out. Only the saved fields are modelled, as `SaveRecord`. A failing write, which `auto_save` swallows, has no effect on the session and is not modelled.
- The `timestamp` field of saved records and the report's timestamp come from the clock. The report timestamp enters as the `generatedAt` parameter; the saved record leaves its timestamp out.
- The conversation id `datetime.now().strftime(...)` (streamlit_app.py:135) enters as a parameter. Its uniqueness is not stated.
- The `phase` field (streamlit_app.py:315, 327) is written but never read, so it is not modelled.
- The initialisation at streamlit_app.py:122-147 is one step here. Python initialises each key separately, only when it is missing, but after a reset all keys are missing together, so every run starts from the full fresh state.
- `st.session_state.clear()` followed by the re-run (streamlit_app.py:194-195) is modelled as the fresh state under a new id, given as a parameter.
- The truthiness test on `current_report` before the report is displayed (streamlit_app.py:234, 364) is display logic and is not modelled. An empty report is stored like any other.
- The body of the system prompt and the fixed texts are copied verbatim. No proof depends on their wording.
