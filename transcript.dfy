/** Chat messages, the plain-text transcript handed to the report writer, and
    the bounded request window sent to the language model on a normal turn. */
module Transcript {

  /** The three roles a chat message can carry; the interview transcript only
      ever holds `User` and `Assistant`, `System` is the protocol message that
      heads every model request. */
  datatype Role = System | User | Assistant

  datatype Message = Message(role: Role, content: string)

  /** The role string stored in each message dictionary. */
  function Name(r: Role): string
  {
    match r
    case System => "system"
    case User => "user"
    case Assistant => "assistant"
  }

  /** Upper-casing as it affects the role names, which are plain ASCII. */
  function UpperChar(c: char): (u: char)
    ensures 'a' <= c <= 'z' ==> 'A' <= u <= 'Z' && u as int == c as int - 32
    ensures !('a' <= c <= 'z') ==> u == c
  {
    if 'a' <= c <= 'z' then (c as int - 32) as char else c
  }

  function Upper(s: string): (u: string)
    ensures |u| == |s|
    ensures forall i :: 0 <= i < |s| ==> u[i] == UpperChar(s[i])
  {
    seq(|s|, i requires 0 <= i < |s| => UpperChar(s[i]))
  }

  /** One transcript entry, `ROLE: content`. */
  function Line(m: Message): string
  {
    Upper(Name(m.role)) + ": " + m.content
  }

  function Lines(ms: seq<Message>): (ls: seq<string>)
    ensures |ls| == |ms|
    ensures forall i :: 0 <= i < |ms| ==> ls[i] == Line(ms[i])
  {
    seq(|ms|, i requires 0 <= i < |ms| => Line(ms[i]))
  }

  /** `sep.join(parts)`: the parts in order with `sep` between neighbours. */
  function Join(parts: seq<string>, sep: string): string
    decreases |parts|
  {
    if |parts| == 0 then ""
    else if |parts| == 1 then parts[0]
    else parts[0] + sep + Join(parts[1..], sep)
  }

  const Separator: string := "\n\n"

  /** The transcript text of the report prompt. */
  function Text(ms: seq<Message>): string
  {
    Join(Lines(ms), Separator)
  }

  // ---------------------------------------------------------------------
  // Properties of the transcript text

  lemma LineOfRole(c: string)
    ensures Line(Message(User, c)) == "USER: " + c
    ensures Line(Message(Assistant, c)) == "ASSISTANT: " + c
  {
    assert Upper("user") == "USER";
    assert Upper("assistant") == "ASSISTANT";
  }

  /** Joining one more part adds exactly one separator and that part. */
  lemma {:induction false} JoinSnoc(parts: seq<string>, sep: string, x: string)
    requires |parts| >= 1
    ensures Join(parts + [x], sep) == Join(parts, sep) + sep + x
    decreases |parts|
  {
    if |parts| == 1 {
      assert (parts + [x])[1..] == [x];
    } else {
      assert (parts + [x])[1..] == parts[1..] + [x];
      JoinSnoc(parts[1..], sep, x);
    }
  }

  /** A transcript of one more message is the old transcript, a blank line
      and the new entry: entries keep message order. */
  lemma TextSnoc(ms: seq<Message>, m: Message)
    requires |ms| >= 1
    ensures Text(ms + [m]) == Text(ms) + Separator + Line(m)
  {
    assert Lines(ms + [m]) == Lines(ms) + [Line(m)];
    JoinSnoc(Lines(ms), Separator, Line(m));
  }

  lemma TextSingle(m: Message)
    ensures Text([m]) == Line(m)
  {
    assert Lines([m]) == [Line(m)];
  }

  /** The transcript of a non-empty prefix of the messages is a prefix of the
      transcript of all of them. */
  lemma {:induction false} TextPrefix(ms: seq<Message>, k: nat)
    requires 1 <= k <= |ms|
    ensures Text(ms[..k]) <= Text(ms)
    decreases |ms| - k
  {
    if k < |ms| {
      TextPrefix(ms, k + 1);
      assert ms[..k + 1] == ms[..k] + [ms[k]];
      TextSnoc(ms[..k], ms[k]);
    } else {
      assert ms[..k] == ms;
    }
  }

  // ---------------------------------------------------------------------
  // The model request of a normal turn

  /** The protocol message that heads every model request. */
  const SystemPrompt: string :=
      "You are an AI mathematics education researcher specializing in multiplicative reasoning,\n"
    + "multidigit multiplication, and multidigit division. Your work is informed by researchers such as\n"
    + "Karl Kosko, Amy Hackenberg, Les Steffe, Erik Tillema, and Karen Zwanch.\n"
    + "\n"
    + "Your role is to conduct a qualitative INTERVIEW with an elementary classroom teacher about how they\n"
    + "teach multiplication and division of multidigit whole numbers, with attention to area models and\n"
    + "other visual/concrete representations.\n"
    + "\n"
    + "CRITICAL RULES:\n"
    + "- Ask ONLY ONE question per message\n"
    + "- Use open-ended, non-leading questions\n"
    + "- Do NOT suggest specific algorithms or answers\n"
    + "- Keep responses short: 1–3 sentences plus ONE question\n"
    + "- Show cognitive empathy and curiosity\n"
    + "- Focus on: algorithms, visual representations (concrete manipulatives, pictorial), sequencing, and teacher beliefs\n"
    + "- Ask follow-up questions for clarity and depth\n"
    + "- Encourage specific classroom examples\n"
    + "\n"
    + "INTERVIEW CONTEXT:\n"
    + "You are currently in the middle of the interview. The introduction has already been completed.\n"
    + "Continue asking thoughtful follow-up questions based on what the teacher shares.\n"
    + "\n"
    + "Part I focuses on: Multidigit multiplication\n"
    + "Part II focuses on: Multidigit division\n"
    + "\n"
    + "Remember: Be non-directive, non-leading, and genuinely curious about their teaching practices.\n"

  /** How many of the latest messages a model request carries. */
  const WindowSize: nat := 20

  function Min(a: nat, b: nat): nat
  {
    if a <= b then a else b
  }

  /** `history[-20:]`: the last `WindowSize` messages, or all if fewer. */
  function Recent(history: seq<Message>): (w: seq<Message>)
    ensures |w| == Min(WindowSize, |history|)
    ensures w == history[|history| - |w|..]
  {
    if |history| <= WindowSize then history else history[|history| - WindowSize..]
  }

  /** The messages of a model request: the protocol first, then the window. */
  function Request(history: seq<Message>): seq<Message>
  {
    [Message(System, SystemPrompt)] + Recent(history)
  }

  /** Builds the request message by message, as the turn handler does. */
  method BuildRequest(history: seq<Message>) returns (request: seq<Message>)
    ensures request == Request(history)
    ensures |request| == 1 + Min(WindowSize, |history|)
    ensures request[0] == Message(System, SystemPrompt)
    ensures forall i :: 1 <= i < |request| ==> request[i] == history[|history| - |request| + i]
  {
    request := [Message(System, SystemPrompt)];
    var start := if |history| > WindowSize then |history| - WindowSize else 0;
    var i := start;
    while i < |history|
      invariant start <= i <= |history|
      invariant request == [Message(System, SystemPrompt)] + history[start..i]
    {
      request := request + [Message(history[i].role, history[i].content)];
      i := i + 1;
    }
    assert history[start..i] == Recent(history);
  }
}
