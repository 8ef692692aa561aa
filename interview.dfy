/** The interview turn state machine: the session state, what one
    respondent message does to it, the length thresholds of auto-save,
    report and reset, and the invariant every reachable session keeps. */
module Interview {
  import opened Transcript

  datatype Option<T> = None | Some(value: T)

  /** The interview stages, in the order the interview walks through them. */
  datatype Stage = Introduction | ReadyToStart | Multiplication | Division

  function Rank(st: Stage): nat
  {
    match st
    case Introduction => 0
    case ReadyToStart => 1
    case Multiplication => 2
    case Division => 3
  }

  /** The stage string saved in a session record. */
  function StageName(st: Stage): string
  {
    match st
    case Introduction => "introduction"
    case ReadyToStart => "ready_to_start"
    case Multiplication => "multiplication"
    case Division => "division"
  }

  function ParseStage(name: string): (r: Option<Stage>)
    ensures r.Some? ==> StageName(r.value) == name
  {
    if name == "introduction" then Some(Introduction)
    else if name == "ready_to_start" then Some(ReadyToStart)
    else if name == "multiplication" then Some(Multiplication)
    else if name == "division" then Some(Division)
    else None
  }

  lemma StageNameRoundTrip(st: Stage)
    ensures ParseStage(StageName(st)) == Some(st)
  {
  }

  /** What the language model call came back with: the streamed text, or the
      text of the exception it raised. */
  datatype Reply = Completed(text: string) | Failed(error: string)

  /** The four ways a turn can answer. */
  datatype Action = SelfIntroduction | OpenMultiplication | DivisionTransition | Delegate

  const Welcome: string :=
      "Hello! Thank you for participating in this interview.\n\n"
    + "Before we begin, could you please tell me a bit about yourself? "
    + "What is your name, what grade level do you teach, and which school or district are you from?"

  const SelfIntroText: string :=
      "Thank you for sharing that information! It's wonderful to meet you.\n\n"
    + "Let me introduce myself: I'm an AI research interviewer specializing in mathematics education, "
    + "particularly in how teachers approach multidigit multiplication and division. "
    + "My research is informed by the work of scholars like Karl Kosko, Amy Hackenberg, and Les Steffe.\n\n"
    + "Today, I'd like to learn about your teaching practices - specifically how you teach multidigit "
    + "multiplication and division, what algorithms and visual representations you use, and why you make "
    + "the instructional choices you do. This interview has two parts: first we'll discuss multiplication, "
    + "then division.\n\n"
    + "There are no right or wrong answers - I'm simply interested in understanding your approach and perspective. "
    + "Shall we begin?"

  const OpeningText: string :=
      "Wonderful! Let's begin with multiplication.\n\n"
    + "Thinking specifically about **multidigit multiplication**, "
    + "what algorithms, strategies, or visuals do you typically use with your students, "
    + "and why do you choose those approaches?"

  const DivisionText: string :=
      "Thank you for sharing how you teach multidigit multiplication.\n\n"
    + "Now let's talk about **division**. Thinking about multidigit division "
    + "(for example long division, partial quotients, or box/area methods), "
    + "what algorithms, strategies, or visuals do you usually use with your students, "
    + "and why do you choose those approaches?"

  const ErrorPrefix: string := "❌ Error: "

  /** Multiplication questions after which the division part starts. */
  const MultThreshold: nat := 5

  /** The session state of one interview. */
  datatype State = State(
    sessionId: string,
    messages: seq<Message>,
    stage: Stage,
    mult: nat,
    div: nat,
    reportGenerated: bool,
    report: Option<string>)

  /** The fields of a saved session file (its timestamp is not modelled). */
  datatype SaveRecord = SaveRecord(
    sessionId: string,
    messages: seq<Message>,
    stage: string,
    mult: int,
    div: int)

  function Record(s: State): (r: SaveRecord)
    ensures ParseStage(r.stage) == Some(s.stage)
    ensures r.sessionId == s.sessionId && r.messages == s.messages
    ensures r.mult == s.mult && r.div == s.div
  {
    SaveRecord(s.sessionId, s.messages, StageName(s.stage), s.mult, s.div)
  }

  /** A fresh session: only the welcome message, nothing counted, no report. */
  function Initial(id: string): State
  {
    State(id, [Message(Assistant, Welcome)], Introduction, 0, 0, false, None)
  }

  // ---------------------------------------------------------------------
  // Length thresholds

  /** Auto-save runs when the length after the user turn is a multiple of 4. */
  predicate AutoSaveDue(n: nat)
  {
    n % 4 == 0
  }

  /** Starting a new session saves the old one when it is past the welcome. */
  predicate SaveOnReset(n: nat)
  {
    n > 2
  }

  const ReportMinMessages: nat := 6

  /** Whether the report can be generated, or how many messages are missing. */
  datatype Gate = Continue(remaining: nat) | Ready

  function ReportGate(n: nat): (g: Gate)
    ensures g.Ready? <==> n >= ReportMinMessages
    ensures g.Continue? ==> g.remaining > 0 && n + g.remaining == ReportMinMessages
  {
    if n < ReportMinMessages then Continue(ReportMinMessages - n) else Ready
  }

  // ---------------------------------------------------------------------
  // One respondent turn

  /** The switch to the division part is due. */
  predicate InsertTransition(s: State)
  {
    s.stage == Multiplication && s.mult >= MultThreshold && s.div == 0
  }

  /** The branch a turn takes, from the stage and the transition test made
      before it. */
  function Dispatch(stage: Stage, insert: bool): Action
  {
    if stage == Introduction then SelfIntroduction
    else if stage == ReadyToStart then OpenMultiplication
    else if insert then DivisionTransition
    else Delegate
  }

  function Decide(s: State): Action
  {
    Dispatch(s.stage, InsertTransition(s))
  }

  function ResponseText(a: Action, reply: Reply): string
  {
    match a
    case SelfIntroduction => SelfIntroText
    case OpenMultiplication => OpeningText
    case DivisionTransition => DivisionText
    case Delegate =>
      match reply
      case Completed(text) => text
      case Failed(error) => ErrorPrefix + error
  }

  function StageAfter(st: Stage, a: Action): Stage
  {
    match a
    case SelfIntroduction => ReadyToStart
    case OpenMultiplication => Multiplication
    case DivisionTransition => Division
    case Delegate => st
  }

  /** The counter update that closes every turn, on the stage the branch left. */
  function UpdateCounters(stage: Stage, insert: bool, mult: nat, div: nat): (nat, nat)
  {
    if stage == Multiplication && !insert then (mult + 1, div)
    else if stage == Division && !insert then (mult, div + 1)
    else (mult, div)
  }

  /** Stage and counters after a turn. */
  datatype Progress = Progress(stage: Stage, mult: nat, div: nat)

  /** The branch's own assignments to stage and counters, followed by the
      counter update shared by all branches. */
  function Advance(s: State): Progress
  {
    var insert := InsertTransition(s);
    var action := Decide(s);
    var stage := StageAfter(s.stage, action);
    var mult := if action == OpenMultiplication then 1 else s.mult;
    var div := if action == DivisionTransition then 1 else s.div;
    var counters := UpdateCounters(stage, insert, mult, div);
    Progress(stage, counters.0, counters.1)
  }

  /** The state after one respondent message: the user turn and the answer
      appended, stage and counters advanced. */
  function Turn(s: State, prompt: string, reply: Reply): (n: State)
    ensures |n.messages| == |s.messages| + 2
    ensures n.messages[..|s.messages|] == s.messages
    ensures n.messages[|s.messages|] == Message(User, prompt)
    ensures n.messages[|s.messages| + 1].role == Assistant
    ensures n.sessionId == s.sessionId
    ensures n.reportGenerated == s.reportGenerated && n.report == s.report
  {
    Answer(s.(messages := s.messages + [Message(User, prompt)]), reply)
  }

  /** The second half of a turn, once the respondent's message is stored:
      the answer appended, stage and counters advanced. */
  function Answer(s: State, reply: Reply): (n: State)
    ensures |n.messages| == |s.messages| + 1 && n.messages[..|s.messages|] == s.messages
    ensures n.messages[|s.messages|].role == Assistant
    ensures Decide(s) == SelfIntroduction ==>
      && n.messages[|s.messages|].content == SelfIntroText
      && n.stage == ReadyToStart && n.mult == s.mult && n.div == s.div
    ensures Decide(s) == OpenMultiplication ==>
      && n.messages[|s.messages|].content == OpeningText
      && n.stage == Multiplication && n.mult == 2 && n.div == s.div
    ensures Decide(s) == DivisionTransition ==>
      && n.messages[|s.messages|].content == DivisionText
      && n.stage == Division && n.mult == s.mult && n.div == 1
    ensures Decide(s) == Delegate ==>
      && n.messages[|s.messages|].content
         == (if reply.Completed? then reply.text else ErrorPrefix + reply.error)
      && n.stage == s.stage
      && (s.stage == Multiplication ==> n.mult == s.mult + 1 && n.div == s.div)
      && (s.stage == Division ==> n.mult == s.mult && n.div == s.div + 1)
    ensures n.sessionId == s.sessionId
    ensures n.reportGenerated == s.reportGenerated && n.report == s.report
  {
    var progress := Advance(s);
    s.(messages := s.messages + [Message(Assistant, ResponseText(Decide(s), reply))],
       stage := progress.stage, mult := progress.mult, div := progress.div)
  }

  /** The record auto-saved right after the user turn is appended, if one is
      due; stage and counters are still those from before the turn. */
  function AutoSave(s: State, prompt: string): Option<SaveRecord>
  {
    var withUser := s.messages + [Message(User, prompt)];
    if AutoSaveDue(|withUser|) then Some(Record(s.(messages := withUser))) else None
  }

  /** The messages a turn sends to the model; only a delegated turn sends any. */
  function ModelRequest(s: State, prompt: string): Option<seq<Message>>
  {
    if Decide(s) == Delegate then Some(Request(s.messages + [Message(User, prompt)])) else None
  }

  // ---------------------------------------------------------------------
  // Report and reset

  const ReportSystemText: string := "You are an expert in qualitative math education research."

  const ReportIntro: string :=
      "You are a mathematics education researcher writing an interview summary.\n\n"
    + "Based on this interview transcript, write a concise summary in markdown format.\n\n"
    + "TRANSCRIPT:\n"

  const ReportSections: string :=
      "\n\nCreate a report with these sections:\n\n"
    + "# Teacher Interview Report: Multidigit Multiplication & Division\n\n"
    + "## Teacher & Classroom Context\n"
    + "## Approaches to Multidigit Multiplication\n"
    + "## Approaches to Multidigit Division\n"
    + "## Beliefs, Rationales, and Student Thinking\n"
    + "## Open Questions & Possible Follow-Ups\n\n"
    + "---\n"
    + "**Report Generated:** "

  /** The report prompt; `generatedAt` is the formatted clock reading. */
  function ReportPrompt(ms: seq<Message>, generatedAt: string, sessionId: string): (p: string)
    ensures |p| >= |ReportIntro| + |Text(ms)| + |ReportSections|
    ensures p[..|ReportIntro|] == ReportIntro
    ensures p[|ReportIntro|..|ReportIntro| + |Text(ms)|] == Text(ms)
    ensures p[|ReportIntro| + |Text(ms)|..][..|ReportSections|] == ReportSections
    ensures p[|ReportIntro| + |Text(ms)| + |ReportSections|..]
         == generatedAt + "\n**Session ID:** " + sessionId + "\n"
  {
    var tail := generatedAt + "\n**Session ID:** " + sessionId + "\n";
    FourParts(ReportIntro, Text(ms), ReportSections, tail);
    ReportIntro + Text(ms) + ReportSections + tail
  }

  lemma FourParts(a: string, b: string, c: string, d: string)
    ensures |a + b + c + d| == |a| + |b| + |c| + |d|
    ensures (a + b + c + d)[..|a|] == a
    ensures (a + b + c + d)[|a|..|a| + |b|] == b
    ensures (a + b + c + d)[|a| + |b|..][..|c|] == c
    ensures (a + b + c + d)[|a| + |b| + |c|..] == d
  {
  }

  function ReportRequest(ms: seq<Message>, generatedAt: string, sessionId: string): seq<Message>
  {
    [Message(System, ReportSystemText), Message(User, ReportPrompt(ms, generatedAt, sessionId))]
  }

  function ReportText(reply: Reply): string
  {
    match reply
    case Completed(text) => text
    case Failed(error) => "Error generating report: " + error
  }

  datatype ReportOutcome = ReportOutcome(next: State, gate: Gate)

  /** Pressing "Generate Report": refused below the gate, otherwise the
      report (or its error text) replaces the stored one. */
  function GenerateReport(s: State, reply: Reply): (o: ReportOutcome)
    ensures o.gate == ReportGate(|s.messages|)
    ensures o.gate.Continue? ==> o.next == s
    ensures o.gate.Ready? ==> o.next == s.(reportGenerated := true, report := Some(ReportText(reply)))
  {
    var gate := ReportGate(|s.messages|);
    if gate.Continue? then ReportOutcome(s, gate)
    else ReportOutcome(s.(reportGenerated := true, report := Some(ReportText(reply))), gate)
  }

  datatype ResetOutcome = ResetOutcome(next: State, saved: Option<SaveRecord>)

  /** Pressing "New Session": save the old session if past the welcome, then
      start again under a new identifier. */
  function NewSession(s: State, newId: string): (o: ResetOutcome)
    ensures o.next == Initial(newId)
    ensures o.saved.Some? <==> |s.messages| > 2
    ensures o.saved.Some? ==> o.saved.value == Record(s)
  {
    ResetOutcome(Initial(newId), if SaveOnReset(|s.messages|) then Some(Record(s)) else None)
  }

  // ---------------------------------------------------------------------
  // The reachable-state invariant

  /** Turns submitted so far. */
  function Turns(s: State): nat
  {
    if |s.messages| == 0 then 0 else (|s.messages| - 1) / 2
  }

  /** The stage after `t` turns of a fresh session. */
  function StageAt(t: nat): Stage
  {
    if t == 0 then Introduction
    else if t == 1 then ReadyToStart
    else if t <= MultThreshold then Multiplication
    else Division
  }

  function MultAt(t: nat): nat
  {
    if t < 2 then 0 else if t <= MultThreshold then t else MultThreshold
  }

  function DivAt(t: nat): nat
  {
    if t <= MultThreshold then 0 else t - MultThreshold
  }

  const IntroIndex: nat := 2
  const OpeningIndex: nat := 4
  const TransitionIndex: nat := 2 * (MultThreshold + 1)

  /** Messages alternate between assistant and user, starting with the assistant. */
  ghost predicate Alternating(ms: seq<Message>)
  {
    forall i :: 0 <= i < |ms| ==> ms[i].role == (if i % 2 == 0 then Assistant else User)
  }

  /** The fixed texts stand where the turns that produce them put them. */
  ghost predicate Scripted(ms: seq<Message>)
  {
    && |ms| > 0
    && ms[0] == Message(Assistant, Welcome)
    && (|ms| > IntroIndex ==> ms[IntroIndex] == Message(Assistant, SelfIntroText))
    && (|ms| > OpeningIndex ==> ms[OpeningIndex] == Message(Assistant, OpeningText))
    && (|ms| > TransitionIndex ==> ms[TransitionIndex] == Message(Assistant, DivisionText))
  }

  /** Every session reachable from a fresh one: messages alternate assistant
      and user starting with the welcome, the fixed texts sit at their turns,
      and stage and counters are determined by the number of turns. */
  ghost predicate Invariant(s: State)
  {
    && Shaped(s.messages)
    && OnSchedule(s)
    && ReportSlot(s)
  }

  ghost predicate Shaped(ms: seq<Message>)
  {
    |ms| % 2 == 1 && Alternating(ms) && Scripted(ms)
  }

  predicate OnSchedule(s: State)
  {
    s.stage == StageAt(Turns(s)) && s.mult == MultAt(Turns(s)) && s.div == DivAt(Turns(s))
  }

  /** A report is stored, with its flag set, only once the gate was passed. */
  predicate ReportSlot(s: State)
  {
    (s.reportGenerated <==> s.report.Some?) && (s.report.Some? ==> |s.messages| >= ReportMinMessages)
  }

  lemma InitialInvariant(id: string)
    ensures Invariant(Initial(id))
  {
  }

  /** The division switch is due exactly on the sixth turn. */
  lemma TransitionTurn(s: State)
    requires Invariant(s)
    ensures InsertTransition(s) <==> Turns(s) == MultThreshold
  {
  }

  /** Appending a user turn and the answer the script demands at that
      position keeps the message shape. */
  lemma AppendTurnShape(ms: seq<Message>, prompt: string, answer: string)
    requires Shaped(ms)
    requires |ms| == IntroIndex - 1 ==> answer == SelfIntroText
    requires |ms| == OpeningIndex - 1 ==> answer == OpeningText
    requires |ms| == TransitionIndex - 1 ==> answer == DivisionText
    ensures Shaped(ms + [Message(User, prompt), Message(Assistant, answer)])
  {
    var ms' := ms + [Message(User, prompt), Message(Assistant, answer)];
    var k := |ms|;
    forall i | 0 <= i < |ms'|
      ensures ms'[i].role == (if i % 2 == 0 then Assistant else User)
    {
      if i < k {
        assert ms'[i] == ms[i];
      }
    }
    assert ms'[0] == ms[0];
    if k > IntroIndex { assert ms'[IntroIndex] == ms[IntroIndex]; }
    if k > OpeningIndex { assert ms'[OpeningIndex] == ms[OpeningIndex]; }
    if k > TransitionIndex { assert ms'[TransitionIndex] == ms[TransitionIndex]; }
  }

  /** A turn taken on schedule stays on schedule, one turn later, and takes
      the scripted branch at the scripted turns. */
  lemma ScheduledTurn(s: State)
    requires OnSchedule(s)
    ensures Advance(s) == Progress(StageAt(Turns(s) + 1), MultAt(Turns(s) + 1), DivAt(Turns(s) + 1))
    ensures Turns(s) == 0 ==> Decide(s) == SelfIntroduction
    ensures Turns(s) == 1 ==> Decide(s) == OpenMultiplication
    ensures Turns(s) == MultThreshold ==> Decide(s) == DivisionTransition
  {
    var t := Turns(s);
    if t == 0 {
      assert Decide(s) == SelfIntroduction;
    } else if t == 1 {
      assert Decide(s) == OpenMultiplication;
    } else if t == MultThreshold {
      assert Decide(s) == DivisionTransition;
    } else if t < MultThreshold {
      assert Decide(s) == Delegate && s.stage == Multiplication;
    } else {
      assert Decide(s) == Delegate && s.stage == Division;
    }
  }

  lemma TurnKeepsInvariant(s: State, prompt: string, reply: Reply)
    requires Invariant(s)
    ensures Invariant(Turn(s, prompt, reply))
    ensures Turns(Turn(s, prompt, reply)) == Turns(s) + 1
  {
    var n := Turn(s, prompt, reply);
    var answer := ResponseText(Decide(s), reply);
    assert n.messages == s.messages + [Message(User, prompt), Message(Assistant, answer)];
    assert |s.messages| == 2 * Turns(s) + 1;
    assert Turns(n) == Turns(s) + 1;
    ScheduledTurn(s);
    AppendTurnShape(s.messages, prompt, answer);
  }

  lemma GenerateReportKeepsInvariant(s: State, reply: Reply)
    requires Invariant(s)
    ensures Invariant(GenerateReport(s, reply).next)
  {
  }
}
