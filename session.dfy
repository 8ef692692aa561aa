/** The interview session as the application keeps it: one object whose fields
    each respondent message, the report button and the new-session button
    update in place. */
module Sessions {
  import opened Transcript
  import opened Interview

  class Session {
    var conversationId: string
    var messages: seq<Message>
    var interviewStage: Stage
    var multQuestions: nat
    var divQuestions: nat
    var reportGenerated: bool
    var currentReport: Option<string>

    /** The session as a value. */
    function Current(): State
      reads this
    {
      State(conversationId, messages, interviewStage, multQuestions, divQuestions,
            reportGenerated, currentReport)
    }

    ghost predicate Valid()
      reads this
    {
      Invariant(Current())
    }

    /** Session start-up; `id` stands for the clock-derived conversation id. */
    constructor (id: string)
      ensures Valid()
      ensures Current() == Initial(id)
      ensures messages == [Message(Assistant, Welcome)]
      ensures interviewStage == Introduction && multQuestions == 0 && divQuestions == 0
      ensures !reportGenerated && currentReport == None
    {
      conversationId := id;
      messages := [Message(Assistant, Welcome)];
      interviewStage := Introduction;
      multQuestions := 0;
      divQuestions := 0;
      reportGenerated := false;
      currentReport := None;
    }

    /** The snapshot `auto_save` writes (without its timestamp). */
    function Snapshot(): (r: SaveRecord)
      reads this
      ensures r == Record(Current())
    {
      SaveRecord(conversationId, messages, StageName(interviewStage), multQuestions, divQuestions)
    }

    /** Handles one non-empty respondent message (the chat input yields
        nothing for an empty one); `reply` is what the model call would
        return if this turn makes one. Returns the auto-saved record, if one
        was due, and the messages sent to the model, if any. */
    method Submit(prompt: string, reply: Reply) returns (autoSave: Option<SaveRecord>, request: Option<seq<Message>>)
      requires Valid()
      requires prompt != ""
      modifies this
      ensures Valid()
      ensures Current() == Turn(old(Current()), prompt, reply)
      ensures autoSave == AutoSave(old(Current()), prompt)
      ensures request == ModelRequest(old(Current()), prompt)
    {
      ghost var before := Current();
      autoSave := AppendUserTurn(prompt);
      assert Current() == before.(messages := before.messages + [Message(User, prompt)]);
      request := AnswerTurn(reply);
      TurnKeepsInvariant(before, prompt, reply);
    }

    /** Stores the respondent's message and takes the auto-save snapshot when
        the new length is due for one. */
    method AppendUserTurn(prompt: string) returns (autoSave: Option<SaveRecord>)
      modifies this`messages
      ensures messages == old(messages) + [Message(User, prompt)]
      ensures autoSave == if AutoSaveDue(|messages|) then Some(Record(Current())) else None
    {
      messages := messages + [Message(User, prompt)];
      autoSave := None;
      if AutoSaveDue(|messages|) {
        autoSave := Some(Snapshot());
      }
    }

    /** The part of a turn after the respondent's message is stored: the
        branch is chosen, its answer appended and the counters updated. */
    method AnswerTurn(reply: Reply) returns (request: Option<seq<Message>>)
      modifies this
      ensures Current() == Answer(old(Current()), reply)
      ensures request == if Decide(old(Current())) == Delegate then Some(Request(old(messages))) else None
    {
      ghost var before := Current();
      var insertTransition := TransitionDue();
      var responseText;
      responseText, request := Respond(insertTransition, reply);
      messages := messages + [Message(Assistant, responseText)];
      CountTurn(insertTransition);
      assert insertTransition == InsertTransition(before);
    }

    /** The transition test, made before the turn's branch is chosen. */
    method TransitionDue() returns (insertTransition: bool)
      ensures insertTransition == InsertTransition(Current())
    {
      insertTransition := false;
      if interviewStage == Multiplication {
        if multQuestions >= MultThreshold && divQuestions == 0 {
          insertTransition := true;
        }
      }
    }

    /** The branch of a turn: the fixed text of the stage, or the model's
        answer to the request built from the latest messages. */
    method Respond(insertTransition: bool, reply: Reply) returns (responseText: string, request: Option<seq<Message>>)
      modifies this`interviewStage, this`multQuestions, this`divQuestions
      ensures var action := Dispatch(old(interviewStage), insertTransition);
        && responseText == ResponseText(action, reply)
        && interviewStage == StageAfter(old(interviewStage), action)
        && multQuestions == (if action == OpenMultiplication then 1 else old(multQuestions))
        && divQuestions == (if action == DivisionTransition then 1 else old(divQuestions))
        && request == (if action == Delegate then Some(Request(messages)) else None)
    {
      request := None;
      if interviewStage == Introduction {
        responseText := SelfIntroText;
        interviewStage := ReadyToStart;
      } else if interviewStage == ReadyToStart {
        responseText := OpeningText;
        interviewStage := Multiplication;
        multQuestions := 1;
      } else if insertTransition {
        responseText := DivisionText;
        interviewStage := Division;
        divQuestions := 1;
      } else {
        var apiMessages := BuildRequest(messages);
        request := Some(apiMessages);
        match reply {
          case Completed(text) => responseText := text;
          case Failed(error) => responseText := ErrorPrefix + error;
        }
      }
    }

    /** The counter update after the answer is stored. */
    method CountTurn(insertTransition: bool)
      modifies this`multQuestions, this`divQuestions
      ensures (multQuestions, divQuestions)
        == UpdateCounters(interviewStage, insertTransition, old(multQuestions), old(divQuestions))
    {
      if interviewStage == Multiplication && !insertTransition {
        multQuestions := multQuestions + 1;
      } else if interviewStage == Division && !insertTransition {
        divQuestions := divQuestions + 1;
      }
    }

    /** The "Generate Report" control: below the gate only the remaining
        count is shown; otherwise the report text (or its error text) is
        stored. `generatedAt` stands for the formatted clock reading. */
    method GenerateReport(generatedAt: string, reply: Reply) returns (gate: Gate, request: Option<seq<Message>>)
      requires Valid()
      modifies this
      ensures Valid()
      ensures Current() == Interview.GenerateReport(old(Current()), reply).next
      ensures gate == ReportGate(|messages|)
      ensures request == if gate.Ready? then Some(ReportRequest(messages, generatedAt, conversationId)) else None
    {
      ghost var before := Current();
      gate := ReportGate(|messages|);
      request := None;
      if gate.Ready? {
        request := Some(ReportRequest(messages, generatedAt, conversationId));
        currentReport := Some(ReportText(reply));
        reportGenerated := true;
      }
      assert Current() == Interview.GenerateReport(before, reply).next;
      GenerateReportKeepsInvariant(before, reply);
    }

    /** The "New Session" control: saves the old session when it is past the
        welcome, then starts over under `newId`. */
    method NewSession(newId: string) returns (saved: Option<SaveRecord>)
      requires Valid()
      modifies this
      ensures Valid()
      ensures Current() == Initial(newId)
      ensures saved == Interview.NewSession(old(Current()), newId).saved
    {
      saved := None;
      if SaveOnReset(|messages|) {
        saved := Some(Snapshot());
      }
      conversationId := newId;
      messages := [Message(Assistant, Welcome)];
      interviewStage := Introduction;
      multQuestions := 0;
      divQuestions := 0;
      reportGenerated := false;
      currentReport := None;
    }
  }
}
