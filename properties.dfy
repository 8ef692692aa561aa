/** What the turn state machine guarantees: for one turn from any state, and
    for any sequence of turns from a fresh session. */
module InterviewProperties {
  import opened Transcript
  import opened Interview

  // ---------------------------------------------------------------------
  // One turn, from any state

  /** Stages only move forward, at most one step per turn, and the division
      part is never left. */
  lemma StageAdvancesAtMostOneStep(s: State, prompt: string, reply: Reply)
    ensures var n := Turn(s, prompt, reply);
      && (Rank(n.stage) == Rank(s.stage) || Rank(n.stage) == Rank(s.stage) + 1)
      && (s.stage == Division ==> n.stage == Division)
  {
  }

  /** The division switch fires exactly when the stage is multiplication,
      at least five multiplication questions were counted and no division
      question was; it then stores the fixed text, enters the division part
      with one division question, leaves the multiplication count alone and
      asks the model nothing. */
  lemma DivisionTransitionRule(s: State, prompt: string, reply: Reply)
    ensures Decide(s) == DivisionTransition
        <==> s.stage == Multiplication && s.mult >= 5 && s.div == 0
    ensures Decide(s) == DivisionTransition ==>
      var n := Turn(s, prompt, reply);
      && n.messages[|s.messages| + 1] == Message(Assistant, DivisionText)
      && n.stage == Division && n.div == 1 && n.mult == s.mult
      && ModelRequest(s, prompt).None?
  {
  }

  /** The counter update: a multiplication turn that is not the switch counts
      a multiplication question, a division turn that is not the switch
      counts a division question, and nothing else counts. This holds for
      the opening turn (1 plus 1) and for a failed model call alike. */
  lemma CounterRule(s: State, prompt: string, reply: Reply)
    ensures var n := Turn(s, prompt, reply);
      var a := Decide(s);
      var base := if a == OpenMultiplication then 1 else s.mult;
      var baseDiv := if a == DivisionTransition then 1 else s.div;
      && (n.stage == Multiplication && a != DivisionTransition ==>
            n.mult == base + 1 && n.div == baseDiv)
      && (n.stage == Division && a != DivisionTransition ==>
            n.mult == base && n.div == baseDiv + 1)
      && (n.stage != Multiplication && n.stage != Division ==>
            n.mult == s.mult && n.div == s.div)
      && (a == DivisionTransition ==> n.mult == s.mult && n.div == 1)
      && (a == OpenMultiplication ==> n.mult == 2 && n.div == s.div)
  {
  }

  /** The model's answer only decides the text of the assistant turn: a
      failed call changes no stage or counter compared with a successful
      one, and stores the error text instead. */
  lemma ReplyOnlyShapesText(s: State, prompt: string, r1: Reply, r2: Reply)
    ensures var n1 := Turn(s, prompt, r1); var n2 := Turn(s, prompt, r2);
      && n1.stage == n2.stage
      && n1.mult == n2.mult && n1.div == n2.div
      && n1.messages[..|s.messages| + 1] == n2.messages[..|s.messages| + 1]
    ensures Decide(s) == Delegate ==>
      (r1.Failed? ==> Turn(s, prompt, r1).messages[|s.messages| + 1].content == ErrorPrefix + r1.error)
      && (r1.Completed? ==> Turn(s, prompt, r1).messages[|s.messages| + 1].content == r1.text)
  {
    var n1, n2 := Turn(s, prompt, r1), Turn(s, prompt, r2);
    assert n1.messages[..|s.messages| + 1] == s.messages + [Message(User, prompt)];
    assert n2.messages[..|s.messages| + 1] == s.messages + [Message(User, prompt)];
  }

  /** The model is asked on a delegated turn only, with the protocol message
      followed by the latest twenty messages, the new user turn last. */
  lemma DelegatedRequest(s: State, prompt: string)
    ensures ModelRequest(s, prompt).Some? <==> Decide(s) == Delegate
    ensures ModelRequest(s, prompt).Some? ==>
      var req := ModelRequest(s, prompt).value;
      && req[0] == Message(System, SystemPrompt)
      && |req| == 1 + Min(WindowSize, |s.messages| + 1)
      && req[|req| - 1] == Message(User, prompt)
      && req[1..] == (s.messages + [Message(User, prompt)])[|s.messages| + 2 - |req|..]
  {
    var history := s.messages + [Message(User, prompt)];
    if Decide(s) == Delegate {
      var req := Request(history);
      var w := Recent(history);
      assert req[1..] == w;
      assert w == history[|history| - |w|..];
      assert req[|req| - 1] == w[|w| - 1] == history[|history| - 1];
    }
  }

  // ---------------------------------------------------------------------
  // Thresholds on reachable sessions

  /** Auto-save fires on every second turn: the new length is a multiple of
      four exactly when an odd number of turns was submitted before. It saves
      the state with the user turn appended and the counters not yet updated. */
  lemma AutoSaveEveryOtherTurn(s: State, prompt: string)
    requires Invariant(s)
    ensures AutoSave(s, prompt).Some? <==> Turns(s) % 2 == 1
    ensures AutoSave(s, prompt).Some? ==>
      AutoSave(s, prompt).value == Record(s.(messages := s.messages + [Message(User, prompt)]))
  {
    var t := Turns(s);
    assert |s.messages| + 1 == 2 * t + 2;
    EvenLengthCadence(t);
  }

  lemma {:induction false} EvenLengthCadence(t: nat)
    ensures (2 * t + 2) % 4 == 0 <==> t % 2 == 1
  {
    if t >= 2 {
      EvenLengthCadence(t - 2);
      assert 2 * t + 2 == (2 * (t - 2) + 2) + 4;
    }
  }

  /** The report is offered once three turns were submitted, and refused
      before with a positive remaining count. */
  lemma ReportOfferedAfterThreeTurns(s: State)
    requires Invariant(s)
    ensures ReportGate(|s.messages|).Ready? <==> Turns(s) >= 3
    ensures ReportGate(|s.messages|).Continue? ==> ReportGate(|s.messages|).remaining > 0
  {
  }

  /** Reset saves the outgoing session exactly when a turn was submitted. */
  lemma ResetSavesAfterFirstTurn(s: State, newId: string)
    requires Invariant(s)
    ensures NewSession(s, newId).saved.Some? <==> s.stage != Introduction
  {
  }

  // ---------------------------------------------------------------------
  // Sequences of turns

  datatype Input = Input(prompt: string, reply: Reply)

  function Run(s: State, inputs: seq<Input>): State
    decreases |inputs|
  {
    if |inputs| == 0 then s
    else Run(Turn(s, inputs[0].prompt, inputs[0].reply), inputs[1..])
  }

  /** How many of the turns take the division switch. */
  function Transitions(s: State, inputs: seq<Input>): nat
    decreases |inputs|
  {
    if |inputs| == 0 then 0
    else (if Decide(s) == DivisionTransition then 1 else 0)
         + Transitions(Turn(s, inputs[0].prompt, inputs[0].reply), inputs[1..])
  }

  /** Every turn adds two messages and keeps all earlier ones. */
  lemma {:induction false} RunAppends(s: State, inputs: seq<Input>)
    ensures |Run(s, inputs).messages| == |s.messages| + 2 * |inputs|
    ensures Run(s, inputs).messages[..|s.messages|] == s.messages
    decreases |inputs|
  {
    if |inputs| > 0 {
      var n := Turn(s, inputs[0].prompt, inputs[0].reply);
      RunAppends(n, inputs[1..]);
      assert Run(s, inputs).messages[..|s.messages|] == Run(n, inputs[1..]).messages[..|n.messages|][..|s.messages|];
    }
  }

  lemma {:induction false} RunKeepsInvariant(s: State, inputs: seq<Input>)
    requires Invariant(s)
    ensures Invariant(Run(s, inputs))
    ensures Turns(Run(s, inputs)) == Turns(s) + |inputs|
    decreases |inputs|
  {
    if |inputs| > 0 {
      TurnKeepsInvariant(s, inputs[0].prompt, inputs[0].reply);
      RunKeepsInvariant(Turn(s, inputs[0].prompt, inputs[0].reply), inputs[1..]);
    }
  }

  /** Once in the division part, no later turn leaves it, changes the
      multiplication count, or takes the switch again. */
  lemma {:induction false} DivisionIsFinal(s: State, inputs: seq<Input>)
    requires s.stage == Division
    ensures Run(s, inputs).stage == Division
    ensures Run(s, inputs).mult == s.mult
    ensures Transitions(s, inputs) == 0
    decreases |inputs|
  {
    if |inputs| > 0 {
      DivisionIsFinal(Turn(s, inputs[0].prompt, inputs[0].reply), inputs[1..]);
    }
  }

  /** From any state whatsoever, the division switch fires at most once. */
  lemma {:induction false} TransitionAtMostOnce(s: State, inputs: seq<Input>)
    ensures Transitions(s, inputs) <= 1
    decreases |inputs|
  {
    if |inputs| > 0 {
      var n := Turn(s, inputs[0].prompt, inputs[0].reply);
      if Decide(s) == DivisionTransition {
        DivisionIsFinal(n, inputs[1..]);
      } else {
        TransitionAtMostOnce(n, inputs[1..]);
      }
    }
  }

  /** On a reachable session the switch fires exactly once, on the sixth
      turn, and never again. */
  lemma {:induction false} TransitionOnSixthTurn(s: State, inputs: seq<Input>)
    requires Invariant(s)
    ensures Transitions(s, inputs)
        == if Turns(s) <= MultThreshold < Turns(s) + |inputs| then 1 else 0
    decreases |inputs|
  {
    if |inputs| > 0 {
      TransitionTurn(s);
      TurnKeepsInvariant(s, inputs[0].prompt, inputs[0].reply);
      TransitionOnSixthTurn(Turn(s, inputs[0].prompt, inputs[0].reply), inputs[1..]);
    }
  }

  /** A fresh session walks the fixed schedule: after `t` turns the stage and
      both counters are those of `t` alone, and from the sixth turn on the
      transcript holds the fixed division text as its thirteenth message. */
  lemma FreshSessionSchedule(id: string, inputs: seq<Input>)
    ensures var s := Run(Initial(id), inputs);
      && |s.messages| == 1 + 2 * |inputs|
      && s.stage == StageAt(|inputs|)
      && s.mult == MultAt(|inputs|) && s.div == DivAt(|inputs|)
      && (|inputs| > MultThreshold ==> s.messages[TransitionIndex] == Message(Assistant, DivisionText))
  {
    var s := Run(Initial(id), inputs);
    InitialInvariant(id);
    RunKeepsInvariant(Initial(id), inputs);
    ReachableSchedule(s);
  }

  /** A fresh session takes the division switch once if it reaches the
      sixth turn, and never otherwise. */
  lemma FreshSessionSwitchesOnce(id: string, inputs: seq<Input>)
    ensures Transitions(Initial(id), inputs) == (if |inputs| > MultThreshold then 1 else 0)
  {
    InitialInvariant(id);
    TransitionOnSixthTurn(Initial(id), inputs);
  }

  lemma ReachableSchedule(s: State)
    requires Invariant(s)
    ensures |s.messages| == 1 + 2 * Turns(s)
    ensures s.stage == StageAt(Turns(s)) && s.mult == MultAt(Turns(s)) && s.div == DivAt(Turns(s))
    ensures Turns(s) > MultThreshold ==> s.messages[TransitionIndex] == Message(Assistant, DivisionText)
  {
  }

  /** In reachable sessions counters never go down, the division count is
      zero before the division part, and the multiplication count is frozen
      inside it. */
  lemma CountersMonotone(s: State, prompt: string, reply: Reply)
    requires Invariant(s)
    ensures var n := Turn(s, prompt, reply);
      && s.mult <= n.mult && s.div <= n.div
      && (n.stage != Division ==> n.div == 0)
      && (s.stage == Division ==> n.mult == s.mult)
  {
    TurnKeepsInvariant(s, prompt, reply);
  }

  /** The report transcript of a turn's result: the old transcript followed
      by the user entry and the assistant entry. */
  lemma TranscriptOfTurn(s: State, prompt: string, reply: Reply)
    requires |s.messages| >= 1
    ensures var n := Turn(s, prompt, reply);
      Text(n.messages) == Text(s.messages) + Separator + Line(Message(User, prompt))
                          + Separator + Line(n.messages[|s.messages| + 1])
  {
    var n := Turn(s, prompt, reply);
    var u := Message(User, prompt);
    var a := n.messages[|s.messages| + 1];
    assert n.messages == (s.messages + [u]) + [a];
    TextSnoc(s.messages, u);
    TextSnoc(s.messages + [u], a);
  }
}
