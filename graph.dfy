/** The turn-orchestration graph of the interview: one invocation runs the
    observer, then the interviewer, then the router, and, when routed, the
    feedback node. Every node returns a partial update; the graph merges it
    into the session record with last-value-wins channels, since the state
    schema declares no reducers. The language-model chains, the JSON decoder
    and Unicode lower-casing are parameters the model does not look inside. */
module Graph {
  import opened Text

  /** The value Python's `dict.get` yields for a string field of decoded JSON:
      a string, or None when the key is missing or null. */
  datatype PyStr = Str(text: string) | PyNone

  /** How an f-string renders a PyStr. */
  function Render(v: PyStr): string {
    match v
    case Str(t) => t
    case PyNone => "None"
  }

  /** One entry of the transcript. `agentVisibleMessage` is None until the
      interviewer attaches the candidate-facing text. */
  datatype Turn = Turn(
    turnId: int,
    userMessage: string,
    internalThoughts: string,
    agentVisibleMessage: Option<string>)

  /** The session record threaded through the graph. */
  datatype AgentState = AgentState(
    participantName: string,
    position: string,
    grade: string,
    history: seq<string>,
    turns: seq<Turn>,
    currentDifficulty: int,
    lastUserInput: string,
    visionContext: string,
    observerInstruction: PyStr,
    allObserverThoughts: seq<PyStr>,
    finalFeedback: string,
    conversationActive: bool,
    totalQuestions: int,
    currentQuestionNumber: int)

  /** The keys a node returns; None means the key is absent. The identifying
      fields, the user input and the vision signal are never returned by a
      node. */
  datatype Update = Update(
    history: Option<seq<string>>,
    turns: Option<seq<Turn>>,
    currentDifficulty: Option<int>,
    observerInstruction: Option<PyStr>,
    allObserverThoughts: Option<seq<PyStr>>,
    finalFeedback: Option<string>,
    conversationActive: Option<bool>,
    currentQuestionNumber: Option<int>)

  const NoChange := Update(None, None, None, None, None, None, None, None)

  /** How the graph stores a returned key: the value replaces the stored one
      (what the source does), or, for the list-valued keys, is appended to it
      (what an `operator.add` reducer would do). */
  datatype Channels = LastValue | Appending

  function Combine<T>(ch: Channels, stored: seq<T>, returned: Option<seq<T>>): seq<T> {
    match returned
    case None => stored
    case Some(v) => if ch == LastValue then v else stored + v
  }

  /** Merges a node's partial update into the session record. */
  function MergeWith(ch: Channels, s: AgentState, u: Update): AgentState {
    s.(history := Combine(ch, s.history, u.history),
       turns := Combine(ch, s.turns, u.turns),
       currentDifficulty := u.currentDifficulty.GetOr(s.currentDifficulty),
       observerInstruction := u.observerInstruction.GetOr(s.observerInstruction),
       allObserverThoughts := Combine(ch, s.allObserverThoughts, u.allObserverThoughts),
       finalFeedback := u.finalFeedback.GetOr(s.finalFeedback),
       conversationActive := u.conversationActive.GetOr(s.conversationActive),
       currentQuestionNumber := u.currentQuestionNumber.GetOr(s.currentQuestionNumber))
  }

  /** The merge the graph performs: every returned key overwrites. */
  function Merge(s: AgentState, u: Update): AgentState {
    MergeWith(LastValue, s, u)
  }

  /** An absent key leaves its field alone and a present one wins, whatever
      was stored before. */
  lemma MergeLastValueWins(s: AgentState, u: Update)
    ensures Merge(s, NoChange) == s
    ensures u.turns.Some? ==> Merge(s, u).turns == u.turns.value
    ensures u.turns.None? ==> Merge(s, u).turns == s.turns
    ensures u.allObserverThoughts.Some? ==> Merge(s, u).allObserverThoughts == u.allObserverThoughts.value
    ensures u.history.Some? ==> Merge(s, u).history == u.history.value
    ensures u.history.None? ==> Merge(s, u).history == s.history
    ensures u.allObserverThoughts.None? ==> Merge(s, u).allObserverThoughts == s.allObserverThoughts
    ensures Merge(s, u).currentDifficulty == u.currentDifficulty.GetOr(s.currentDifficulty)
    ensures Merge(s, u).observerInstruction == u.observerInstruction.GetOr(s.observerInstruction)
    ensures Merge(s, u).finalFeedback == u.finalFeedback.GetOr(s.finalFeedback)
    ensures Merge(s, u).conversationActive == u.conversationActive.GetOr(s.conversationActive)
    ensures Merge(s, u).currentQuestionNumber == u.currentQuestionNumber.GetOr(s.currentQuestionNumber)
    ensures Merge(s, u).participantName == s.participantName && Merge(s, u).position == s.position
    ensures Merge(s, u).grade == s.grade && Merge(s, u).totalQuestions == s.totalQuestions
    ensures Merge(s, u).lastUserInput == s.lastUserInput && Merge(s, u).visionContext == s.visionContext
  {
  }

  // ---------------------------------------------------------------- observer

  /** What the observer chain is given. */
  datatype ObserverPrompt = ObserverPrompt(
    position: string,
    grade: string,
    difficulty: int,
    history: string,
    lastUserInput: string,
    visionData: string)

  /** The outcome of invoking a chain: its text, or an exception. */
  datatype ChainReply = Reply(text: string) | ChainError

  /** The `difficulty_adjustment` entry: missing (read as 0), an integer, or
      a value `+` rejects with a TypeError. */
  datatype Adjustment = Absent | Whole(n: int) | NotANumber

  /** The observer's JSON object, read field by field with `dict.get`. */
  datatype Decision = Decision(
    thoughtProcess: PyStr,
    nextInstruction: PyStr,
    difficultyAdjustment: Adjustment,
    status: PyStr)

  const StartThought := Str("Start of interview")
  const ErrorInstruction := Str("Продолжай интервью.")
  const ErrorThought := Str("Error parsing")
  const Finish := Str("finish")

  /** `"\n".join(history[-2:])`. */
  function RecentHistory(h: seq<string>): string {
    Join(if |h| <= 2 then h else h[|h| - 2..], "\n")
  }

  function ObserverPromptOf(s: AgentState): ObserverPrompt {
    ObserverPrompt(s.position, s.grade, s.currentDifficulty, RecentHistory(s.history),
                   s.lastUserInput, s.visionContext)
  }

  function Greeting(s: AgentState): string {
    "Поприветствуй " + s.participantName + " и начни собеседование на " + s.position + "."
  }

  /** `max(1, min(10, cur + adj))`: the new difficulty lies in [1, 10] and
      equals `cur + adj` whenever that already does. */
  function ClampDifficulty(cur: int, adj: int): (r: int)
    ensures 1 <= r <= 10
    ensures 1 <= cur + adj <= 10 ==> r == cur + adj
    ensures cur + adj < 1 ==> r == 1
    ensures cur + adj > 10 ==> r == 10
  {
    var m := if 10 < cur + adj then 10 else cur + adj;
    if 1 < m then m else 1
  }

  function AdjustmentValue(a: Adjustment): int
    requires !a.NotANumber?
  {
    if a.Whole? then a.n else 0
  }

  /** The observer's reply when the session starts. */
  function StartUpdate(s: AgentState): Update {
    NoChange.(observerInstruction := Some(Str(Greeting(s))), allObserverThoughts := Some([StartThought]))
  }

  /** The observer's reply when the chain raises or its output cannot be used. */
  const FallbackUpdate := NoChange.(observerInstruction := Some(ErrorInstruction), allObserverThoughts := Some([ErrorThought]))

  /** The turn the observer opens for the current answer. */
  function OpenedTurn(s: AgentState, d: Decision): Turn {
    Turn(|s.turns| + 1, s.lastUserInput,
         "[Observer]: " + Render(d.thoughtProcess) + " | [Vision]: " + s.visionContext, None)
  }

  function DecisionUpdate(s: AgentState, d: Decision): Update
    requires !d.difficultyAdjustment.NotANumber?
  {
    NoChange.(observerInstruction := Some(d.nextInstruction),
              currentDifficulty := Some(ClampDifficulty(s.currentDifficulty, AdjustmentValue(d.difficultyAdjustment))),
              allObserverThoughts := Some([d.thoughtProcess]),
              turns := Some([OpenedTurn(s, d)]),
              conversationActive := Some(d.status != Finish))
  }

  /** The observer node. It always returns an instruction and exactly one
      thought, never touches history, the counter or the feedback, and when it
      returns a difficulty that difficulty is in range and comes with the
      opened turn and a liveness decision. */
  function ObserverNode(s: AgentState, chain: ObserverPrompt -> ChainReply, decode: string -> Parse<Decision>): (u: Update)
    ensures u.history.None? && u.finalFeedback.None? && u.currentQuestionNumber.None?
    ensures u.observerInstruction.Some? && u.allObserverThoughts.Some? && |u.allObserverThoughts.value| == 1
    ensures u.currentDifficulty.Some? ==> 1 <= u.currentDifficulty.value <= 10
    ensures u.turns.Some? <==> u.currentDifficulty.Some?
    ensures u.turns.Some? <==> u.conversationActive.Some?
    ensures u.turns.Some? ==> s.lastUserInput != "" && |u.turns.value| == 1
    ensures u.turns.Some? ==> u.turns.value[0].turnId == |s.turns| + 1 && u.turns.value[0].userMessage == s.lastUserInput
    ensures u.turns.Some? ==> u.turns.value[0].agentVisibleMessage.None?
  {
    if s.lastUserInput == "" then StartUpdate(s)
    else match chain(ObserverPromptOf(s))
      case ChainError => FallbackUpdate
      case Reply(text) =>
        match decode(StripFences(text))
        case Malformed => FallbackUpdate
        case Parsed(d) =>
          if d.difficultyAdjustment.NotANumber? then FallbackUpdate else DecisionUpdate(s, d)
  }

  /** An empty input starts the interview: a greeting instruction and the
      start thought, nothing else, whatever the chain and the decoder would
      have done (the chain is not consulted). */
  lemma ObserverAtStart(s: AgentState, c1: ObserverPrompt -> ChainReply, d1: string -> Parse<Decision>,
                        c2: ObserverPrompt -> ChainReply, d2: string -> Parse<Decision>)
    requires s.lastUserInput == ""
    ensures ObserverNode(s, c1, d1) == ObserverNode(s, c2, d2)
    ensures ObserverNode(s, c1, d1).allObserverThoughts == Some([Str("Start of interview")])
    ensures ObserverNode(s, c1, d1) == NoChange.(observerInstruction := Some(Str(Greeting(s))),
                                                 allObserverThoughts := Some([StartThought]))
    ensures var t := Merge(s, ObserverNode(s, c1, d1));
      t.currentDifficulty == s.currentDifficulty && t.turns == s.turns && t.conversationActive == s.conversationActive
  {
  }

  /** The chain raised, the reply did not decode to an object, or the
      adjustment is not a number: exactly the fallback, and difficulty, turns
      and liveness survive the merge. Conversely the fallback is returned for
      a non-empty input only in those cases. */
  lemma ObserverFallbackIff(s: AgentState, chain: ObserverPrompt -> ChainReply, decode: string -> Parse<Decision>)
    requires s.lastUserInput != ""
    ensures var failed := match chain(ObserverPromptOf(s))
                          case ChainError => true
                          case Reply(text) => decode(StripFences(text)).Malformed?
                                              || decode(StripFences(text)).value.difficultyAdjustment.NotANumber?;
      failed <==> ObserverNode(s, chain, decode) == NoChange.(observerInstruction := Some(Str("Продолжай интервью.")),
                                                             allObserverThoughts := Some([Str("Error parsing")]))
    ensures ObserverNode(s, chain, decode) == FallbackUpdate ==>
      var t := Merge(s, FallbackUpdate);
      t.currentDifficulty == s.currentDifficulty && t.turns == s.turns && t.conversationActive == s.conversationActive
  {
  }

  /** A usable decision: the difficulty is clamped, one turn is opened for the
      answer, liveness is `status != "finish"` and the instruction is passed on. */
  lemma ObserverOnDecision(s: AgentState, chain: ObserverPrompt -> ChainReply, decode: string -> Parse<Decision>, d: Decision)
    requires s.lastUserInput != ""
    requires chain(ObserverPromptOf(s)).Reply?
    requires decode(StripFences(chain(ObserverPromptOf(s)).text)) == Parsed(d)
    requires !d.difficultyAdjustment.NotANumber?
    ensures var t := Merge(s, ObserverNode(s, chain, decode));
      && t.currentDifficulty == ClampDifficulty(s.currentDifficulty, AdjustmentValue(d.difficultyAdjustment))
      && 1 <= t.currentDifficulty <= 10
      && t.turns == [Turn(|s.turns| + 1, s.lastUserInput,
                          "[Observer]: " + Render(d.thoughtProcess) + " | [Vision]: " + s.visionContext, None)]
      && t.conversationActive == (d.status != Str("finish"))
      && t.observerInstruction == d.nextInstruction
      && t.allObserverThoughts == [d.thoughtProcess]
  {
  }

  // ------------------------------------------------------------- interviewer

  /** What the interviewer chain is given. */
  datatype InterviewerPrompt = InterviewerPrompt(
    candidateName: string,
    position: string,
    observerInstruction: PyStr,
    lastUserInput: string)

  function InterviewerPromptOf(s: AgentState): InterviewerPrompt {
    InterviewerPrompt(s.participantName, s.position, s.observerInstruction, s.lastUserInput)
  }

  /** `f"{cur}/{total} {msg}"`. */
  function NumberedMessage(cur: int, total: int, msg: string): string {
    IntToString(cur) + "/" + IntToString(total) + " " + msg
  }

  /** The numbered message the interviewer produces for this state. */
  function QuestionMessage(s: AgentState, chain: InterviewerPrompt -> string): string {
    NumberedMessage(s.currentQuestionNumber + 1, s.totalQuestions, chain(InterviewerPromptOf(s)))
  }

  /** The list `state['turns']` after the interviewer's in-place change. */
  function InterviewerTurns(s: AgentState, chain: InterviewerPrompt -> string): seq<Turn> {
    if !s.conversationActive then s.turns
    else
      var m := QuestionMessage(s, chain);
      if |s.turns| > 0 then s.turns[..|s.turns| - 1] + [s.turns[|s.turns| - 1].(agentVisibleMessage := Some(m))]
      else [Turn(1, s.lastUserInput, "Intro", Some(m))]
  }

  /** The keys the interviewer returns. */
  function InterviewerUpdate(s: AgentState, chain: InterviewerPrompt -> string): (u: Update)
    ensures !s.conversationActive ==> u == NoChange
    ensures s.conversationActive ==> u.currentQuestionNumber == Some(s.currentQuestionNumber + 1)
    ensures s.conversationActive ==> u.conversationActive == Some(s.currentQuestionNumber + 1 < s.totalQuestions)
    ensures s.conversationActive ==>
      u.history == Some(["User: " + s.lastUserInput, "Agent: " + QuestionMessage(s, chain)])
    ensures u.turns.None? && u.currentDifficulty.None? && u.observerInstruction.None?
    ensures u.allObserverThoughts.None? && u.finalFeedback.None?
  {
    if !s.conversationActive then NoChange
    else
      var cur := s.currentQuestionNumber + 1;
      var m := QuestionMessage(s, chain);
      NoChange.(history := Some(["User: " + s.lastUserInput, "Agent: " + m]),
                currentQuestionNumber := Some(cur),
                conversationActive := Some(!(cur >= s.totalQuestions)))
  }

  /** The state after the interviewer: its in-place change, then its keys. */
  function AfterInterviewer(s: AgentState, chain: InterviewerPrompt -> string): AgentState {
    Merge(s.(turns := InterviewerTurns(s, chain)), InterviewerUpdate(s, chain))
  }

  /** An inactive session passes the interviewer unchanged. */
  lemma InterviewerInactiveIsNoOp(s: AgentState, chain: InterviewerPrompt -> string)
    requires !s.conversationActive
    ensures InterviewerUpdate(s, chain) == NoChange
    ensures AfterInterviewer(s, chain) == s
  {
  }

  /** An active session gets the next question number; liveness then becomes
      `cur < total`, so the interviewer can switch liveness off but never on. */
  lemma InterviewerCountsQuestions(s: AgentState, chain: InterviewerPrompt -> string)
    ensures var t := AfterInterviewer(s, chain);
      && (s.conversationActive ==> t.currentQuestionNumber == s.currentQuestionNumber + 1)
      && (s.conversationActive ==> (t.conversationActive <==> s.currentQuestionNumber + 1 < s.totalQuestions))
      && (t.conversationActive ==> s.conversationActive)
      && (!s.conversationActive ==> t.currentQuestionNumber == s.currentQuestionNumber)
      && t.currentDifficulty == s.currentDifficulty && t.allObserverThoughts == s.allObserverThoughts
  {
  }

  /** The numbered message goes onto the last turn and nowhere else; with no
      turns yet, a single intro turn numbered 1 carries it. */
  lemma InterviewerAttachesMessage(s: AgentState, chain: InterviewerPrompt -> string)
    requires s.conversationActive
    ensures var t := AfterInterviewer(s, chain).turns;
      var m := IntToString(s.currentQuestionNumber + 1) + "/" + IntToString(s.totalQuestions) + " "
               + chain(InterviewerPromptOf(s));
      && (|s.turns| > 0 ==>
            && |t| == |s.turns|
            && (forall i :: 0 <= i < |t| - 1 ==> t[i] == s.turns[i])
            && t[|t| - 1].turnId == s.turns[|t| - 1].turnId
            && t[|t| - 1].userMessage == s.turns[|t| - 1].userMessage
            && t[|t| - 1].internalThoughts == s.turns[|t| - 1].internalThoughts
            && t[|t| - 1].agentVisibleMessage == Some(m))
      && (s.turns == [] ==> t == [Turn(1, s.lastUserInput, "Intro", Some(m))])
  {
  }

  // ------------------------------------------------------ router and feedback

  datatype Route = ToFeedback | ToEnd

  const StopWord := "стоп"

  /** The conditional edge after the interviewer; `lower` stands for Python's
      `str.lower`. */
  function Router(s: AgentState, lower: string -> string): Route {
    if !s.conversationActive || Contains(lower(s.lastUserInput), StopWord) then ToFeedback else ToEnd
  }

  lemma RouterIff(s: AgentState, lower: string -> string)
    ensures Router(s, lower) == ToFeedback <==> !s.conversationActive || Contains(lower(s.lastUserInput), "стоп")
    ensures Router(s, lower) == ToEnd <==> s.conversationActive && !Contains(lower(s.lastUserInput), "стоп")
  {
  }

  /** What the feedback chain is given. */
  datatype FeedbackPrompt = FeedbackPrompt(position: string, allObserverThoughts: string)

  /** `"\n".join(xs)`, which raises a TypeError (None here) when an item is
      None. */
  function JoinThoughts(xs: seq<PyStr>): (r: Option<string>)
    ensures r.Some? <==> forall i :: 0 <= i < |xs| ==> xs[i].Str?
  {
    if forall i :: 0 <= i < |xs| ==> xs[i].Str? then Some(Join(seq(|xs|, i requires 0 <= i < |xs| => xs[i].text), "\n"))
    else None
  }

  /** The feedback node: it sets `final_feedback` and nothing else, or raises
      when a stored thought is None. */
  function FeedbackNode(s: AgentState, chain: FeedbackPrompt -> string): (r: Option<Update>)
    ensures r.Some? <==> forall i :: 0 <= i < |s.allObserverThoughts| ==> s.allObserverThoughts[i].Str?
    ensures r.Some? ==> r.value.finalFeedback.Some? && r.value.(finalFeedback := None) == NoChange
  {
    match JoinThoughts(s.allObserverThoughts)
    case None => None
    case Some(text) => Some(NoChange.(finalFeedback := Some(chain(FeedbackPrompt(s.position, text)))))
  }

  // ------------------------------------------------------------------- graph

  /** The collaborators one invocation consults. */
  datatype Oracles = Oracles(
    observer: ObserverPrompt -> ChainReply,
    decode: string -> Parse<Decision>,
    interviewer: InterviewerPrompt -> string,
    feedback: FeedbackPrompt -> string,
    lower: string -> string)

  /** An invocation returns the final state, or lets an exception escape. */
  datatype Outcome = Returned(state: AgentState) | Raised

  /** One invocation of the compiled graph under the given channel kind. */
  function StepUsing(ch: Channels, s: AgentState, o: Oracles): Outcome {
    var s1 := MergeWith(ch, s, ObserverNode(s, o.observer, o.decode));
    var s2 := MergeWith(ch, s1.(turns := InterviewerTurns(s1, o.interviewer)), InterviewerUpdate(s1, o.interviewer));
    if Router(s2, o.lower) == ToEnd then Returned(s2)
    else match FeedbackNode(s2, o.feedback)
      case None => Raised
      case Some(u) => Returned(MergeWith(ch, s2, u))
  }

  /** One invocation of the graph as built: observer, interviewer, router,
      feedback, with overwriting channels. */
  function Step(s: AgentState, o: Oracles): Outcome {
    StepUsing(LastValue, s, o)
  }

  function AfterObserver(s: AgentState, o: Oracles): AgentState {
    Merge(s, ObserverNode(s, o.observer, o.decode))
  }

  /** The state the router inspects. */
  function BeforeRouter(s: AgentState, o: Oracles): AgentState {
    AfterInterviewer(AfterObserver(s, o), o.interviewer)
  }

  /** A step ends at the router with the interviewer's state, or reaches the
      feedback node, which changes only the final feedback; an inactive state
      after the interviewer is always finalised. */
  lemma StepRoutes(s: AgentState, o: Oracles)
    ensures var t := BeforeRouter(s, o);
      && (Router(t, o.lower) == ToEnd ==> Step(s, o) == Returned(t))
      && (Router(t, o.lower) == ToFeedback && Step(s, o).Returned? ==>
            && Step(s, o).state.(finalFeedback := t.finalFeedback) == t
            && Step(s, o).state.finalFeedback
               == o.feedback(FeedbackPrompt(t.position, JoinThoughts(t.allObserverThoughts).value)))
      && (Step(s, o).Raised? <==> Router(t, o.lower) == ToFeedback && JoinThoughts(t.allObserverThoughts).None?)
      && (!t.conversationActive ==> Router(t, o.lower) == ToFeedback)
  {
  }

  /** The session invariant: difficulty in [1, 10], the counter within the
      quota, and a live session still below it. */
  predicate Invariant(s: AgentState) {
    && 1 <= s.currentDifficulty <= 10
    && 0 <= s.currentQuestionNumber <= s.totalQuestions
    && (s.conversationActive ==> s.currentQuestionNumber < s.totalQuestions)
  }

  /** A step taken on a live session keeps the invariant; the counter rises by
      exactly one when the observer lets the session go on, and otherwise
      stays. */
  lemma StepKeepsInvariant(s: AgentState, o: Oracles)
    requires Invariant(s) && s.conversationActive
    ensures Step(s, o).Returned? ==> Invariant(Step(s, o).state)
    ensures Step(s, o).Returned? ==>
      Step(s, o).state.currentQuestionNumber
      == s.currentQuestionNumber + (if AfterObserver(s, o).conversationActive then 1 else 0)
  {
    var s1 := AfterObserver(s, o);
    var s2 := BeforeRouter(s, o);
    InterviewerCountsQuestions(s1, o.interviewer);
    assert s1.currentQuestionNumber == s.currentQuestionNumber;
    assert 1 <= s2.currentDifficulty <= 10;
    StepRoutes(s, o);
  }

  /** What the caller writes into the state before each invocation, and the
      collaborators' behaviour during it. */
  datatype Answer = Answer(userInput: string, vision: string, oracles: Oracles)

  /** The caller's loop: it invokes the graph only while the session is live,
      after writing the new answer and vision signal into the state. */
  function Run(s: AgentState, answers: seq<Answer>): Outcome
    decreases |answers|
  {
    if answers == [] || !s.conversationActive then Returned(s)
    else
      match Step(s.(lastUserInput := answers[0].userInput, visionContext := answers[0].vision), answers[0].oracles)
      case Raised => Raised
      case Returned(t) => Run(t, answers[1..])
  }

  /** Over any run, difficulty stays in [1, 10] and the counter never passes
      the quota. */
  lemma {:induction false} RunKeepsInvariant(s: AgentState, answers: seq<Answer>)
    requires Invariant(s)
    ensures Run(s, answers).Returned? ==> Invariant(Run(s, answers).state)
    decreases |answers|
  {
    if answers != [] && s.conversationActive {
      var a := answers[0];
      var s' := s.(lastUserInput := a.userInput, visionContext := a.vision);
      StepKeepsInvariant(s', a.oracles);
      if Step(s', a.oracles).Returned? {
        RunKeepsInvariant(Step(s', a.oracles).state, answers[1..]);
      }
    }
  }

  /** A run that offers at least as many answers as questions remain ends
      with the session no longer live: the quota forces termination. */
  lemma {:induction false} RunEndsWithinQuota(s: AgentState, answers: seq<Answer>)
    requires Invariant(s)
    requires |answers| >= s.totalQuestions - s.currentQuestionNumber
    ensures Run(s, answers).Returned? ==> !Run(s, answers).state.conversationActive
    decreases |answers|
  {
    if answers != [] && s.conversationActive {
      var a := answers[0];
      var s' := s.(lastUserInput := a.userInput, visionContext := a.vision);
      StepKeepsInvariant(s', a.oracles);
      if Step(s', a.oracles).Returned? {
        var t := Step(s', a.oracles).state;
        if t.conversationActive {
          StepRoutes(s', a.oracles);
          InterviewerCountsQuestions(AfterObserver(s', a.oracles), a.oracles.interviewer);
          assert t.currentQuestionNumber == s.currentQuestionNumber + 1;
          RunEndsWithinQuota(t, answers[1..]);
        }
      }
    }
  }

  /** The record the caller creates when the interview starts. */
  function Initial(name: string, position: string, grade: string, totalQuestions: int): AgentState {
    AgentState(name, position, grade, [], [], 5, "", "Camera active", Str(""), [], "", true, totalQuestions, 0)
  }

  lemma InitialKeepsInvariant(name: string, position: string, grade: string, totalQuestions: int)
    requires totalQuestions >= 1
    ensures Invariant(Initial(name, position, grade, totalQuestions))
    ensures forall answers :: Run(Initial(name, position, grade, totalQuestions), answers).Returned? ==>
      Invariant(Run(Initial(name, position, grade, totalQuestions), answers).state)
  {
    forall answers ensures Run(Initial(name, position, grade, totalQuestions), answers).Returned? ==>
      Invariant(Run(Initial(name, position, grade, totalQuestions), answers).state)
    {
      RunKeepsInvariant(Initial(name, position, grade, totalQuestions), answers);
    }
  }

  /** A one-question interview: the first invocation greets, numbers its
      question "1/1" on an intro turn, ends the session and writes the
      feedback. */
  lemma OneQuestionInterview(name: string, position: string, grade: string, o: Oracles)
    ensures var s := Initial(name, position, grade, 1);
      var m := o.interviewer(InterviewerPrompt(name, position, Str(Greeting(s)), ""));
      && Step(s, o).Returned?
      && Step(s, o).state.turns == [Turn(1, "", "Intro", Some("1/1 " + m))]
      && Step(s, o).state.currentQuestionNumber == 1
      && !Step(s, o).state.conversationActive
      && Step(s, o).state.finalFeedback == o.feedback(FeedbackPrompt(position, "Start of interview"))
  {
    var s := Initial(name, position, grade, 1);
    var s1 := AfterObserver(s, o);
    assert s1 == s.(observerInstruction := Str(Greeting(s)), allObserverThoughts := [StartThought]);
    var m := o.interviewer(InterviewerPrompt(name, position, Str(Greeting(s)), ""));
    assert IntToString(1) == "1";
    assert QuestionMessage(s1, o.interviewer) == "1/1 " + m;
    var s2 := BeforeRouter(s, o);
    assert s2.turns == [Turn(1, "", "Intro", Some("1/1 " + m))];
    assert !s2.conversationActive && s2.currentQuestionNumber == 1;
    assert Join(["Start of interview"], "\n") == "Start of interview";
    assert JoinThoughts(s2.allObserverThoughts) == Some("Start of interview");
    StepRoutes(s, o);
  }

  /** A "finish" decision ends the session early: the step is routed to the
      feedback node even though questions remain. */
  lemma FinishRoutesToFeedback(s: AgentState, o: Oracles, d: Decision)
    requires s.lastUserInput != "" && s.conversationActive
    requires o.observer(ObserverPromptOf(s)).Reply?
    requires o.decode(StripFences(o.observer(ObserverPromptOf(s)).text)) == Parsed(d)
    requires !d.difficultyAdjustment.NotANumber? && d.status == Str("finish")
    ensures !AfterObserver(s, o).conversationActive
    ensures Router(BeforeRouter(s, o), o.lower) == ToFeedback
    ensures BeforeRouter(s, o).currentQuestionNumber == s.currentQuestionNumber
  {
  }

  /** Garbage from the observer chain leaves difficulty and liveness as they
      were before the step, and no exception comes from the observer. */
  lemma GarbageKeepsDifficultyAndLiveness(s: AgentState, o: Oracles)
    requires s.lastUserInput != "" && o.observer(ObserverPromptOf(s)).Reply?
    requires o.decode(StripFences(o.observer(ObserverPromptOf(s)).text)).Malformed?
    ensures AfterObserver(s, o).currentDifficulty == s.currentDifficulty
    ensures AfterObserver(s, o).conversationActive == s.conversationActive
    ensures AfterObserver(s, o).allObserverThoughts == [ErrorThought]
    ensures Step(s, o).Returned?
    ensures Step(s, o).state.currentDifficulty == s.currentDifficulty
  {
    assert ObserverNode(s, o.observer, o.decode) == FallbackUpdate;
    var s1 := AfterObserver(s, o);
    assert s1 == Merge(s, FallbackUpdate);
    var s2 := BeforeRouter(s, o);
    assert s2.currentDifficulty == s1.currentDifficulty;
    assert s2.allObserverThoughts == [ErrorThought];
    StepRoutes(s, o);
  }

  /** The stop word anywhere in the lower-cased input routes to feedback,
      live or not. */
  lemma StopWordRoutesToFeedback(s: AgentState, o: Oracles)
    requires Contains(o.lower(s.lastUserInput), "стоп")
    ensures Router(BeforeRouter(s, o), o.lower) == ToFeedback
  {
  }

  // ----------------------------------------------------------------- findings

  /** As written: every step overwrites `all_observer_thoughts` with the one
      thought of that step, so the feedback chain never sees earlier ones. */
  lemma StepKeepsOnlyLatestThought(s: AgentState, o: Oracles)
    ensures Step(s, o).Returned? ==> |Step(s, o).state.allObserverThoughts| == 1
    ensures s.allObserverThoughts == [Str("a")] && s.lastUserInput != "" && o.observer(ObserverPromptOf(s)).ChainError?
            ==> Step(s, o).Returned? && Step(s, o).state.allObserverThoughts == [Str("Error parsing")]
  {
    StepRoutes(s, o);
    assert |BeforeRouter(s, o).allObserverThoughts| == 1;
  }

  /** As written: a usable decision replaces the whole transcript by the one
      newly opened turn, whose id still counts the discarded ones. */
  lemma DecisionReplacesTranscript(s: AgentState, o: Oracles, d: Decision)
    requires s.lastUserInput != "" && o.observer(ObserverPromptOf(s)).Reply?
    requires o.decode(StripFences(o.observer(ObserverPromptOf(s)).text)) == Parsed(d)
    requires !d.difficultyAdjustment.NotANumber?
    ensures Step(s, o).Returned? ==> |Step(s, o).state.turns| == 1
    ensures Step(s, o).Returned? ==> Step(s, o).state.turns[0].turnId == |s.turns| + 1
  {
    StepRoutes(s, o);
  }

  /** Corrected: with appending channels every thought is kept, in order. */
  lemma AccumulatingStepKeepsThoughts(s: AgentState, o: Oracles)
    ensures StepUsing(Appending, s, o).Returned? ==>
      var t := StepUsing(Appending, s, o).state.allObserverThoughts;
      |t| == |s.allObserverThoughts| + 1 && t[..|s.allObserverThoughts|] == s.allObserverThoughts
  {
    var u := ObserverNode(s, o.observer, o.decode);
    assert |u.allObserverThoughts.value| == 1;
  }

  /** Turn ids are the 1-based positions in the transcript. */
  predicate NumberedByPosition(turns: seq<Turn>) {
    forall i :: 0 <= i < |turns| ==> turns[i].turnId == i + 1
  }

  /** The interviewer never drops a turn and changes at most the last one. */
  lemma InterviewerKeepsEarlierTurns(s: AgentState, chain: InterviewerPrompt -> string)
    ensures var t := InterviewerTurns(s, chain);
      && |t| >= |s.turns|
      && (forall i :: 0 <= i < |s.turns| - 1 ==> t[i] == s.turns[i])
      && (NumberedByPosition(s.turns) ==> NumberedByPosition(t))
  {
  }

  /** Under either channel kind, the returned state carries the turn list
      the interviewer left. */
  lemma StepTurnsAreInterviewerTurns(ch: Channels, s: AgentState, o: Oracles)
    ensures var s1 := MergeWith(ch, s, ObserverNode(s, o.observer, o.decode));
      StepUsing(ch, s, o).Returned? ==> StepUsing(ch, s, o).state.turns == InterviewerTurns(s1, o.interviewer)
  {
  }

  /** Appending keeps the stored turns as a prefix. */
  lemma AppendingKeepsTurnPrefix(s: AgentState, u: Update)
    requires u.turns.Some? ==> |u.turns.value| == 1 && u.turns.value[0].turnId == |s.turns| + 1
    ensures var t := MergeWith(Appending, s, u).turns;
      && |t| >= |s.turns| && t[..|s.turns|] == s.turns
      && (NumberedByPosition(s.turns) ==> NumberedByPosition(t))
  {
  }

  /** Corrected: with appending channels no earlier turn is lost or
      renumbered, and turn ids stay equal to positions. */
  lemma AccumulatingStepKeepsTranscript(s: AgentState, o: Oracles)
    ensures StepUsing(Appending, s, o).Returned? ==>
      var t := StepUsing(Appending, s, o).state.turns;
      |t| >= |s.turns| && (forall i :: 0 <= i < |s.turns| - 1 ==> t[i] == s.turns[i])
    ensures StepUsing(Appending, s, o).Returned? && NumberedByPosition(s.turns) ==>
      NumberedByPosition(StepUsing(Appending, s, o).state.turns)
  {
    var u := ObserverNode(s, o.observer, o.decode);
    var s1 := MergeWith(Appending, s, u);
    AppendingKeepsTurnPrefix(s, u);
    InterviewerKeepsEarlierTurns(s1, o.interviewer);
    StepTurnsAreInterviewerTurns(Appending, s, o);
    var t1 := InterviewerTurns(s1, o.interviewer);
    assert forall i :: 0 <= i < |s.turns| - 1 ==> t1[i] == s1.turns[i] == s.turns[i];
  }

  /** Corrected: with appending channels a decided answer adds exactly one
      turn, for that answer, and keeps every earlier turn unchanged. */
  lemma AccumulatingDecisionAddsOneTurn(s: AgentState, o: Oracles, d: Decision)
    requires s.lastUserInput != "" && o.observer(ObserverPromptOf(s)).Reply?
    requires o.decode(StripFences(o.observer(ObserverPromptOf(s)).text)) == Parsed(d)
    requires !d.difficultyAdjustment.NotANumber?
    ensures StepUsing(Appending, s, o).Returned? ==>
      var t := StepUsing(Appending, s, o).state.turns;
      && |t| == |s.turns| + 1 && t[..|s.turns|] == s.turns
      && t[|s.turns|].turnId == |s.turns| + 1 && t[|s.turns|].userMessage == s.lastUserInput
  {
    StepTurnsAreInterviewerTurns(Appending, s, o);
  }

  /** With either channel kind, an observer fallback on a live session that
      already has turns opens no turn for the current answer: the new
      question is written onto the previous answer's turn. */
  lemma FallbackReusesPreviousTurn(ch: Channels, s: AgentState, o: Oracles)
    requires s.lastUserInput != "" && s.conversationActive && |s.turns| > 0
    requires ObserverNode(s, o.observer, o.decode) == FallbackUpdate
    ensures StepUsing(ch, s, o).Returned? ==>
      var t := StepUsing(ch, s, o).state.turns;
      var s1 := MergeWith(ch, s, FallbackUpdate);
      && |t| == |s.turns| && t[..|s.turns| - 1] == s.turns[..|s.turns| - 1]
      && t[|t| - 1].userMessage == s.turns[|s.turns| - 1].userMessage
      && t[|t| - 1].agentVisibleMessage == Some(QuestionMessage(s1, o.interviewer))
  {
    StepTurnsAreInterviewerTurns(ch, s, o);
  }

  // ------------------------------------------------------------ the session

  /** The graph's channel store for one session. The interviewer changes the
      stored turn list in place; every other change goes through `Apply`. */
  class Session {
    const participantName: string
    const position: string
    const grade: string
    var history: seq<string>
    var turns: seq<Turn>
    var currentDifficulty: int
    var lastUserInput: string
    var visionContext: string
    var observerInstruction: PyStr
    var allObserverThoughts: seq<PyStr>
    var finalFeedback: string
    var conversationActive: bool
    const totalQuestions: int
    var currentQuestionNumber: int

    function Snapshot(): AgentState
      reads this
    {
      AgentState(participantName, position, grade, history, turns, currentDifficulty, lastUserInput,
                 visionContext, observerInstruction, allObserverThoughts, finalFeedback,
                 conversationActive, totalQuestions, currentQuestionNumber)
    }

    /** The record the caller seeds when the interview starts. */
    constructor (name: string, pos: string, gr: string, total: int)
      ensures Snapshot() == Initial(name, pos, gr, total)
    {
      participantName, position, grade := name, pos, gr;
      history, turns := [], [];
      currentDifficulty := 5;
      lastUserInput, visionContext := "", "Camera active";
      observerInstruction, allObserverThoughts := Str(""), [];
      finalFeedback, conversationActive := "", true;
      totalQuestions, currentQuestionNumber := total, 0;
    }

    /** The graph's merge of a returned update: each present key overwrites. */
    method Apply(u: Update)
      modifies this
      ensures Snapshot() == Merge(old(Snapshot()), u)
    {
      var t := Merge(Snapshot(), u);
      history, turns, currentDifficulty := t.history, t.turns, t.currentDifficulty;
      observerInstruction, allObserverThoughts := t.observerInstruction, t.allObserverThoughts;
      finalFeedback, conversationActive := t.finalFeedback, t.conversationActive;
      currentQuestionNumber := t.currentQuestionNumber;
    }

    /** The interviewer node: attaches the numbered message to the stored
      turn list in place and returns its keys. */
    method Interviewer(chain: InterviewerPrompt -> string) returns (u: Update)
      modifies this
      ensures Snapshot() == old(Snapshot()).(turns := InterviewerTurns(old(Snapshot()), chain))
      ensures u == InterviewerUpdate(old(Snapshot()), chain)
    {
      if !conversationActive {
        return NoChange;
      }
      var msg := chain(InterviewerPrompt(participantName, position, observerInstruction, lastUserInput));
      var cur := currentQuestionNumber + 1;
      var total := totalQuestions;
      var numbered := NumberedMessage(cur, total, msg);
      if |turns| > 0 {
        var last := turns[|turns| - 1];
        turns := turns[..|turns| - 1] + [last.(agentVisibleMessage := Some(numbered))];
      } else {
        turns := turns + [Turn(1, lastUserInput, "Intro", Some(numbered))];
      }
      var active := true;
      if cur >= total {
        active := false;
      }
      u := NoChange.(history := Some(["User: " + lastUserInput, "Agent: " + numbered]),
                     currentQuestionNumber := Some(cur),
                     conversationActive := Some(active));
    }

    /** One invocation of the graph. When the feedback node raises, the state
      stays as the interviewer left it. */
    method Advance(o: Oracles) returns (raised: bool)
      modifies this
      ensures raised <==> Step(old(Snapshot()), o).Raised?
      ensures !raised ==> Snapshot() == Step(old(Snapshot()), o).state
      ensures raised ==> Snapshot() == BeforeRouter(old(Snapshot()), o)
    {
      var u := ObserverNode(Snapshot(), o.observer, o.decode);
      Apply(u);
      var v := Interviewer(o.interviewer);
      Apply(v);
      var s2 := Snapshot();
      raised := false;
      if Router(s2, o.lower) == ToFeedback {
        var f := FeedbackNode(s2, o.feedback);
        if f.None? {
          raised := true;
        } else {
          Apply(f.value);
        }
      }
    }
  }
}
