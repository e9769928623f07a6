# Interview-agent core in Dafny

This project models the decision logic of a multi-agent technical-interview
assistant. Each candidate answer triggers one invocation of a small state
graph: the observer grades the answer and steers difficulty, the interviewer
numbers and asks the next question, the router decides whether the interview
is over, and the feedback node writes the final feedback. Around the graph sit
three smaller pieces:

- the answer evaluator's clean-up and fallback for unreadable model replies;
- the aggregation of per-turn scores into a Hire / No Hire report;
- the camera rule that turns detected object labels into one status line.

The language-model chains, the JSON decoder and Unicode lower-casing are
function parameters. The model never looks inside them.

Files:

- `text.dfy`: the Python string operations the code relies on, over `seq<char>`. These are `in`, `replace`, `strip`, `join`, `str(int)` and slicing.
- `graph.dfy`: the session record, the four nodes, the merge of node updates, one invocation (`Step`), a run of invocations by the caller (`Run`), and the class `Session`.
  - `Session` keeps the state in fields.
  - Its `Interviewer` method changes the stored turn list in place, as `interviewer_node` does.
- `evaluator.dfy`: `evaluate_answer`, `uniq` (a loop proved against the `Distinct` specification), `aggregate_final` (a loop proved against `FinalReportOf`) and the placeholder `generate_final_report`.
- `vision.dfy`: `analyze_frame` as a method over the labels the detector reports. It has nested loops and conditional appends, and is proved against `FrameStatus`.

The schema declares no reducers, so a key a node returns replaces the stored
value. That includes `turns`, `history` and `all_observer_thoughts`. The model
follows the code here. It does not follow the intended design of a transcript
that grows turn by turn; the two Findings below record the difference. The code
has no guard against invoking a finished session. The caller's guard on
`conversation_active` is modelled in `Run`.

Scores are integers. Averages and percentages are exact rationals, not floats,
and the verdict is also characterised over integers. Python's `round` is
modelled as round-half-to-even, and `int()` as truncation toward zero.

## Model

| member | source | states |
|---|---|---|
| Graph.MergeLastValueWins | modules/graph.py:6-20 | For every key a node can return, a key left out keeps its stored value and a returned key replaces it. That covers the list-valued `turns`, `history` and `all_observer_thoughts` as well as difficulty, instruction, feedback, liveness and the counter. The identifying fields, the input and the vision signal are never changed by a merge. |
| Graph.ClampDifficulty | modules/graph.py:42 | The new difficulty lies in [1, 10] for every adjustment. It equals `cur + adj` when that is in range, and otherwise 1 or 10. |
| Graph.ObserverNode | modules/graph.py:22-59 | The observer always returns an instruction and exactly one thought. It never returns history, the counter or the feedback. It returns a difficulty exactly when it returns a new turn and a liveness value: one turn, with id `len(turns)+1`, the user's message, and no visible message yet. |
| Graph.ObserverAtStart | modules/graph.py:23-27 | With an empty input the update is only the greeting instruction and the thought "Start of interview", whatever the chain and decoder would return, so the chain is not consulted. Difficulty, turns and liveness are unchanged after the merge. |
| Graph.ObserverOnDecision | modules/graph.py:39-56 | For a decoded decision with a numeric adjustment: difficulty equals the clamped value and lies in [1, 10]. The transcript becomes the opened turn, whose thoughts are `[Observer]: … \| [Vision]: …`. Liveness is `status != "finish"`, and the instruction and thought are passed on. |
| Graph.ObserverFallbackIff | modules/graph.py:57-59 | For a non-empty input, the update is exactly "Продолжай интервью." plus the thoughts ["Error parsing"] if and only if the chain raised, the reply did not decode, or the adjustment is not a number. Difficulty, turns and liveness then survive the merge. |
| Graph.InterviewerUpdate | modules/graph.py:61-94 | An inactive session gets the empty update. An active one gets counter `cur = old+1`, liveness `cur < total`, and the history lines `"User: " + input` and `"Agent: " + numbered message`, which replace the stored history. The interviewer never returns turns, difficulty, instruction, thoughts or feedback. |
| Graph.InterviewerInactiveIsNoOp | modules/graph.py:62-63 | An inactive session returns the empty update, and the state after the interviewer equals the state before it. |
| Graph.InterviewerCountsQuestions | modules/graph.py:72-93 | When active, the counter rises by exactly one and liveness becomes `old+1 < total`. Liveness can go from true to false but never from false to true. When inactive, the counter stays. |
| Graph.InterviewerAttachesMessage | modules/graph.py:74-84 | The message `"{cur}/{total} {msg}"` goes onto the last turn. Every other turn and the last turn's other fields stay the same. With no turns, the list becomes exactly one turn: id 1, the input, "Intro" and the message. |
| Graph.InterviewerKeepsEarlierTurns | modules/graph.py:76-84 | The in-place change never shortens the list and changes at most its last entry. It keeps turn ids equal to positions. |
| Graph.RouterIff | modules/graph.py:112-115 | The route is feedback exactly when the session is inactive or "стоп" occurs in the lower-cased input, and END exactly otherwise. |
| Graph.JoinThoughts | modules/graph.py:99 | `"\n".join` gives a string exactly when no stored thought is None. Otherwise it raises. |
| Graph.FeedbackNode | modules/graph.py:96-101 | The feedback node returns an update exactly when every thought is a string. That update sets `final_feedback` and no other key. |
| Graph.StepRoutes | modules/graph.py:103-120 | An invocation runs the observer, then the interviewer, then the router. A route to END returns the interviewer's state. A route to feedback returns it with only `final_feedback` replaced by the feedback chain's reply on the joined thoughts. It raises exactly when routed to feedback with a None thought. An inactive state is always routed to feedback. |
| Graph.StepKeepsInvariant | modules/graph.py:22-94 | From a live state with difficulty in [1, 10] and counter below the quota, a returned step keeps difficulty in range and the counter within the quota. The counter rises by one exactly when the observer left the session live. |
| Graph.RunKeepsInvariant | run_app.py:239-249 | Over any sequence of answers the caller feeds while the session is live, the invariant holds whenever the run returns. |
| Graph.RunEndsWithinQuota | modules/graph.py:86-88 | A run offered at least as many answers as questions remain ends with the session inactive. |
| Graph.InitialKeepsInvariant | run_app.py:61-76 | The seeded record satisfies the invariant for any quota of at least one, and so does every state a run from it returns. |
| Graph.OneQuestionInterview | modules/graph.py:103-120 | With a quota of one, the first invocation opens an intro turn with message "1/1 …" and sets the counter to 1. It ends the session and stores the feedback chain's reply on "Start of interview". |
| Graph.FinishRoutesToFeedback | modules/graph.py:55 | A decoded "finish" status makes the session inactive and routes the step to feedback, while the counter is unchanged. |
| Graph.GarbageKeepsDifficultyAndLiveness | modules/graph.py:57-59 | An undecodable observer reply leaves difficulty as before after the whole step and liveness as before after the observer, stores ["Error parsing"], and the step does not raise. |
| Graph.StopWordRoutesToFeedback | modules/graph.py:113 | The stop word in the lower-cased input routes to feedback whether the session is live or not. |
| Graph.StepKeepsOnlyLatestThought | modules/graph.py:53 | As written, after any returned step exactly one thought is stored. A stored ["a"] followed by a failed observer call leaves only ["Error parsing"]. |
| Graph.DecisionReplacesTranscript | modules/graph.py:54 | As written, after a usable decision the transcript is a single turn whose id is `old length + 1`. |
| Graph.AccumulatingStepKeepsThoughts | modules/graph.py:16 | With appending list channels, the stored thoughts stay a prefix and exactly one thought is added. |
| Graph.AccumulatingStepKeepsTranscript | modules/graph.py:11 | With appending list channels, no earlier turn is lost or changed except the last one, and turn ids stay equal to positions. |
| Graph.AccumulatingDecisionAddsOneTurn | modules/graph.py:44-54 | With appending list channels, a decided answer adds exactly one turn, with id equal to its position and the answer as its user message, and every earlier turn is kept unchanged. |
| Graph.FallbackReusesPreviousTurn | modules/graph.py:57-77 | Under either channel kind, an observer fallback on a live session with turns, whether the chain raises, the reply does not decode or the adjustment is not a number, opens no turn for the answer: the length stays the same, all turns but the last are unchanged, and the new question is written onto the previous answer's turn. |
| Graph.Session.constructor | run_app.py:61-76 | A new session holds the seeded record. |
| Graph.Session.Apply | modules/graph.py:6-20 | The stored state becomes the overwrite merge of the old state with the update. |
| Graph.Session.Interviewer | modules/graph.py:61-94 | Only the stored turn list changes, to its in-place version, and the returned keys are the interviewer's update. |
| Graph.Session.Advance | modules/graph.py:103-120 | The method raises exactly when the step raises. Otherwise the stored state becomes the step's result. When it raises, the stored state is the state before the router. |
| Text.StripFences | modules/graph.py:39 | After the two replacements and `strip`, no "```" is left in the text. |
| Text.NatToStringRoundTrip | modules/graph.py:74 | The decimal digits of the question number read back as that number. |
| Evaluator.CleanReply | modules/evaluator.py:55 | The cleaned evaluator reply holds no code fence. |
| Evaluator.EvaluateAnswerFallback | modules/evaluator.py:53-67 | A decodable reply is returned as decoded. An undecodable one gives score 0, `correct` False, the one fixed mistake, empty good points and topics, and the first 300 characters of the cleaned text, which hold no fence. |
| Evaluator.Uniq | modules/evaluator.py:118-125 | The loop with its `seen` set returns `Distinct(xs)`. |
| Evaluator.DistinctMembers | modules/evaluator.py:122 | An item is in the output exactly when it is a non-empty item of the input. |
| Evaluator.DistinctIsDuplicateFree | modules/evaluator.py:118-125 | The output has no duplicates and no empty item. |
| Evaluator.DistinctFirstOccurrences | modules/evaluator.py:118-125 | Each output item is taken at its first occurrence, and the positions taken increase. So the output is a subsequence of the input, in first-occurrence order. |
| Evaluator.DistinctOfDistinctFree | modules/evaluator.py:145 | `uniq` leaves a duplicate-free list with no empty item unchanged. |
| Evaluator.CorrectCountCounts | modules/evaluator.py:105 | The correct count is the number of turns whose score, with a missing score read as 0, reaches the threshold. |
| Evaluator.AggregateFinal | modules/evaluator.py:95-146 | The accumulation loop, the four `uniq` calls and the truncations produce `FinalReportOf(perTurn, threshold)`. |
| Evaluator.AverageAtLeast | modules/evaluator.py:103 | For a non-empty list, average ≥ 75 exactly when `sum >= 75 n`. |
| Evaluator.PercentAtLeast | modules/evaluator.py:106 | For a non-empty list, the correct percentage is ≥ 60 exactly when `100 correct >= 60 n`. |
| Evaluator.VerdictIff | modules/evaluator.py:131 | The verdict is "Hire" exactly when `n > 0`, `sum >= 75 n` and `100 correct >= 60 n`. Otherwise it is "No Hire". |
| Evaluator.EmptyReportIsNoHire | modules/evaluator.py:102-106 | With no turns the score and percentage are 0, the verdict is "No Hire", and all lists are empty. |
| Evaluator.ReportLists | modules/evaluator.py:127-145 | Strengths, weaknesses and topics have at most 7 items, and recommendations at most 5. The three lists are duplicate-free and hold no empty item. The recommendations are the first five topics. |
| Evaluator.RoundHalfEven | modules/evaluator.py:134 | The result lies within one half of `num/den`, and an exact half goes to the even neighbour. |
| Evaluator.OverallScoreIsRoundedAverage | modules/evaluator.py:134 | The overall score lies within one half of the average. |
| Evaluator.TruncatedMean | modules/evaluator.py:84 | The result is 0 for no scores. Otherwise it is the mean truncated toward zero, bracketed between consecutive multiples of `n` on the correct side. |
| Evaluator.StubScoreIsTruncatedMean | modules/evaluator.py:80-92 | The placeholder report's score is the truncated mean of the scores, with a missing score read as 0, and 0 without evaluations. |
| Vision.AnalyzeFrame | modules/vision.py:9-35 | A missing frame gives "Camera feed unavailable.". Otherwise the nested loops and conditional appends give `FrameStatus` of the set of all detected labels. |
| Vision.PhoneAlertIff | modules/vision.py:25-26 | The phone alert is in the status line exactly when "cell phone" is detected. |
| Vision.AbsentAlertIff | modules/vision.py:27-28 | The not-visible alert is in the status line exactly when no "person" is detected. |
| Vision.DeskNoteIff | modules/vision.py:29-30 | The books/laptop note is in the status line exactly when "book" or "laptop" is detected. |
| Vision.AllClearIff | modules/vision.py:32-35 | The status is the all-clear line exactly when no rule fires. Otherwise it is the fired messages, in the order phone, not visible, note, joined by " \| ". |

## Left out

- The Streamlit interface, timers, audio capture and playback, speech recognition and log files are left out. They are I/O around the core. `Run` stands for the caller's loop: write the answer and vision signal, invoke while live.
- The language-model chains' prompts and clients are not modelled. Each chain is a function parameter.
- Exceptions raised by the interviewer and feedback chains are left out. The source does not catch them, and the model takes these chains as total.
- The internals of `json.loads` are not modelled. Decoding is a parameter returning `Parsed` or `Malformed`. In the observer, a JSON value of the wrong shape counts as `Malformed`, because `data.get` then raises inside the same `try` and the same fallback follows.
- Evaluator.EvaluateAnswerFallback: the source returns a decodable reply unchanged even when it is not an object or has wrongly typed fields, such as `[1, 2]`, `42`, `null` or `{"score": "high"}`. Such replies lie outside `Assessment`, so the model covers only replies that decode to an evaluation object and replies that fail to decode.
- Unicode lower-casing is not modelled. `lower` is a parameter.
- A float or boolean `difficulty_adjustment` is not modelled. Python adds both, making a float difficulty or counting a boolean as 0/1. The model's adjustment is missing, an integer, or a value `+` rejects, such as null or a string.
- JSON values of other types in string fields are not modelled, for example a number as `thought_process`. Such fields are strings or None (`PyStr`).
- `Evaluator.Assessment` carries no score of JSON null. A null `score` is not representable. `aggregate_final` and `generate_final_report` would raise on it when they compare or add it, while `evaluate_answer` returns it unchanged.
- `round(correct_percent, 1)` and the `:.1f` formatting of `detailed_feedback` are not modelled. `correctPercent` is the exact percentage, and `detailed_feedback` is absent from `FinalReport`.
- Float behaviour at very large values is not modelled, because averages are exact rationals.
- `aggregate_final`'s `position`, `questions` and `answers` parameters and `generate_final_report`'s `questions`, `answers` and `position` are left out. Neither function uses them.
- Evaluator.AggregateFinal: the default `correct_threshold = 70` is not modelled separately. The threshold is a parameter, and 70 is one of its values.
- The placeholder `GPT4FreeEvaluator.evaluate_answer` is left out. It returns a constant record.
- The object detector and its class-name table are not modelled. A frame is given as the label of every box of every result.
- Graph.Session.Interviewer: the Python list is shared with the caller's dictionary, and this aliasing is not modelled. The session's own field is the only copy.
- The `print` calls in the observer's error path are left out. They are output only.

## Findings

| source | as written | input that shows it | evidently intended | confidence | as-written member | corrected member |
|---|---|---|---|---|---|---|
| modules/graph.py:53 | Each step returns `all_observer_thoughts` as a one-item list. Without a reducer this replaces the stored list, so the feedback chain sees only the last thought. | A stored ["a"], then a step whose observer chain raises: the stored thoughts become ["Error parsing"]. | The thoughts accumulate over the interview, as with an appending reducer, and the feedback receives all of them. | high; not executed | Graph.StepKeepsOnlyLatestThought | Graph.AccumulatingStepKeepsThoughts |
| modules/graph.py:54 | Each usable decision returns `turns` as `[turn_log]`. This replaces the transcript, while `turn_id` still counts the discarded turns. | Two stored turns, then a decoded decision: the transcript becomes one turn with id 3. | Each decided answer adds one turn, numbered by its position, and every earlier turn is kept. This is limited to decided answers: after an observer fallback (a raising chain, an undecodable reply or a non-numeric adjustment) no turn is opened for the answer, even with appending channels, and the question goes onto the previous turn (`Graph.FallbackReusesPreviousTurn`). | high; not executed | Graph.DecisionReplacesTranscript | Graph.AccumulatingDecisionAddsOneTurn |

The corrected members run the same nodes with appending list channels
(`StepUsing(Appending, …)`). The rest of the model (`Step`, `Run`, `Session`)
follows the code as written.
