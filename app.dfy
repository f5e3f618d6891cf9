/** The chat-input handler: with splitting on and a decomposition of more
    than one sub-prompt, the chain runs and each exchange becomes a "Part i"
    message; otherwise one direct call answers the prompt. */
module App {
  import opened Backend
  import opened Context
  import opened Decomposition
  import opened Chain

  datatype Role = User | Assistant

  /** One entry of the session's message list. */
  datatype Message = Message(role: Role, content: string)

  /** The decimal digit for `d`. */
  function Digit(d: nat): char
    requires d < 10
  {
    "0123456789"[d]
  }

  /** `str(n)` for a natural number. */
  function Decimal(n: nat): (r: string)
    ensures |r| > 0
    decreases n
  {
    if n < 10 then [Digit(n)] else Decimal(n / 10) + [Digit(n % 10)]
  }

  /** The number a string of decimal digits denotes. */
  function Value(s: string): nat
    decreases |s|
  {
    if |s| == 0 then 0 else 10 * Value(s[..|s| - 1]) + DigitValue(s[|s| - 1])
  }

  /** The value of one decimal digit character (0 for any other character). */
  function DigitValue(c: char): nat
  {
    if '0' <= c <= '9' then c as int - '0' as int else 0
  }

  /** The part label is the decimal numeral of the part number: made of digits
      only, with no leading zero, and denoting that number. */
  lemma {:induction false} DecimalDenotes(n: nat)
    ensures Value(Decimal(n)) == n
    ensures forall k :: 0 <= k < |Decimal(n)| ==> '0' <= Decimal(n)[k] <= '9'
    ensures |Decimal(n)| > 1 ==> Decimal(n)[0] != '0'
    decreases n
  {
    if n >= 10 {
      DecimalDenotes(n / 10);
      var s := Decimal(n);
      assert s[..|s| - 1] == Decimal(n / 10);
    }
  }

  /** The stored content of part `i` (counted from 1) of a chained answer. */
  function PartContent(i: nat, e: Exchange): string
  {
    "**Part " + Decimal(i) + "**: " + e.query + "\n\n" + e.response
  }

  /** The assistant messages of a chained answer, numbered from 1. */
  function PartMessages(exchanges: seq<Exchange>): seq<Message>
  {
    seq(|exchanges|, i requires 0 <= i < |exchanges| => Message(Assistant, PartContent(i + 1, exchanges[i])))
  }

  /** The wording the handler fills in: the decomposition instruction and
      the follow-up template of its own loop. */
  datatype Wording = Wording(decomposition: Frame, followUp: Template)

  /** The handler's wording as written. */
  const HandlerWording: Wording := Wording(DecompositionFrame, UiTemplate)

  /** The messages one chat input appends to the session: the user's prompt,
      then the answer. With splitting on, the decomposition is call 0 and
      everything after it is numbered from 1. */
  function Turn(w: Wording, prompt: string, splitting: bool, model: string, oracle: Oracle, loads: Loads): (r: seq<Message>)
    ensures |r| >= 2 && r[0] == Message(User, prompt)
    ensures forall i :: 1 <= i < |r| ==> r[i].role == Assistant
  {
    var user := Message(User, prompt);
    if splitting then
      var subPrompts := AiPromptDecomposition(w.decomposition, prompt, oracle, loads);
      if |subPrompts| > 1 then
        [user] + PartMessages(Exchanges(w.followUp, subPrompts, oracle, 1))
      else
        [user, Message(Assistant, GetAiResponse(oracle, 1, prompt, model))]
    else
      [user, Message(Assistant, GetAiResponse(oracle, 0, prompt, model))]
  }

  /** With splitting off, the prompt is answered by one call to the selected model. */
  lemma TurnDirect(w: Wording, prompt: string, model: string, oracle: Oracle, loads: Loads)
    ensures Turn(w, prompt, false, model, oracle, loads) ==
            [Message(User, prompt), Message(Assistant, GetAiResponse(oracle, 0, prompt, model))]
  {
  }

  /** With splitting on but a decomposition of at most one sub-prompt, the
      ORIGINAL prompt, not the sub-prompt, is answered by one call to the
      selected model, made after the decomposition call. */
  lemma TurnUnsplit(w: Wording, prompt: string, model: string, oracle: Oracle, loads: Loads)
    requires |AiPromptDecomposition(w.decomposition, prompt, oracle, loads)| <= 1
    ensures Turn(w, prompt, true, model, oracle, loads) ==
            [Message(User, prompt), Message(Assistant, GetAiResponse(oracle, 1, prompt, model))]
  {
  }

  /** With splitting on and several sub-prompts, the answer is one message per
      sub-prompt, in order, labelled "Part i" from 1; part `i + 1` carries the
      reply of the default model, not the selected one, to the prompt sent at
      step `i` of the chain. */
  lemma TurnChained(w: Wording, prompt: string, model: string, oracle: Oracle, loads: Loads, i: nat)
    requires |AiPromptDecomposition(w.decomposition, prompt, oracle, loads)| > 1
    requires i < |AiPromptDecomposition(w.decomposition, prompt, oracle, loads)|
    ensures var subPrompts := AiPromptDecomposition(w.decomposition, prompt, oracle, loads);
            var r := Turn(w, prompt, true, model, oracle, loads);
            && |r| == 1 + |subPrompts|
            && r[i + 1] == Message(Assistant, PartContent(i + 1, Exchange(subPrompts[i],
                 GetAiResponse(oracle, 1 + i, SentPrompt(w.followUp, subPrompts, oracle, 1, i), DefaultModel))))
  {
    var subPrompts := AiPromptDecomposition(w.decomposition, prompt, oracle, loads);
    var exchanges := Exchanges(w.followUp, subPrompts, oracle, 1);
    var r := Turn(w, prompt, true, model, oracle, loads);
    assert r == [Message(User, prompt)] + PartMessages(exchanges);
    assert r[i + 1] == Message(Assistant, PartContent(i + 1, exchanges[i]));
    ChainStep(w.followUp, subPrompts, oracle, 1, i);
  }

  /** The chat-input handler, for any wording: append the user's message,
      then either run the chain over a decomposition of several sub-prompts,
      one "Part" message per exchange, or answer the prompt with one direct
      call to the selected model. */
  method HandleChatInput(w: Wording, prompt: string, splitting: bool, model: string, oracle: Oracle, loads: Loads)
    returns (appended: seq<Message>)
    ensures appended == Turn(w, prompt, splitting, model, oracle, loads)
  {
    appended := [Message(User, prompt)];
    if splitting {
      var subPrompts := AiPromptDecomposition(w.decomposition, prompt, oracle, loads);
      if |subPrompts| > 1 {
        var exchanges := RunChain(w.followUp, subPrompts, oracle, 1);
        appended := appended + PartMessages(exchanges);
      } else {
        var response := GetAiResponse(oracle, 1, prompt, model);
        appended := appended + [Message(Assistant, response)];
      }
    } else {
      var response := GetAiResponse(oracle, 0, prompt, model);
      appended := appended + [Message(Assistant, response)];
    }
  }

  /** The handler with its wording as written. */
  method OnChatInput(prompt: string, splitting: bool, model: string, oracle: Oracle, loads: Loads)
    returns (appended: seq<Message>)
    ensures appended == Turn(HandlerWording, prompt, splitting, model, oracle, loads)
  {
    appended := HandleChatInput(HandlerWording, prompt, splitting, model, oracle, loads);
  }
}
