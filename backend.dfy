/** The language-model backend as seen by the application, and the wrapper
    that turns every backend failure into a plain reply string. */
module Backend {

  /** Model name used when a caller passes none. */
  const DefaultModel: string := "gpt-4o-mini"

  /** Token ceiling sent with every completion request. */
  const MaxTokens: nat := 500

  /** Prefix of the reply that stands in for a failed call. */
  const ErrorTag: string := "Error: "

  /** One completion request: the model, the single user message, the token ceiling. */
  datatype Request = Request(model: string, prompt: string, maxTokens: nat)

  /** What one backend call yields: the message content, or the text of the
      exception it raised (transport, authentication, quota, malformed reply). */
  datatype Outcome = Ok(content: string) | Fail(message: string)

  /** The backend is an oracle: its answer to the n-th call of a chat turn.
      The call index lets two identical requests receive different answers. */
  type Oracle = (nat, Request) -> Outcome

  /** The reply for a backend outcome: the content unchanged on success,
      the error tag followed by the exception text on failure. */
  function Reply(o: Outcome): (r: string)
    ensures o.Ok? ==> r == o.content
    ensures o.Fail? ==> |r| == |ErrorTag| + |o.message|
    ensures o.Fail? ==> r[..|ErrorTag|] == ErrorTag && r[|ErrorTag|..] == o.message
  {
    match o
    case Ok(text) => text
    case Fail(msg) => ErrorTag + msg
  }

  /** `get_ai_response`: one request with the given prompt and model and the
      fixed token ceiling, sent as call number `call`. It never fails outward. */
  function GetAiResponse(oracle: Oracle, call: nat, prompt: string, model: string): (r: string)
    ensures oracle(call, Request(model, prompt, MaxTokens)).Ok? ==>
              r == oracle(call, Request(model, prompt, MaxTokens)).content
    ensures oracle(call, Request(model, prompt, MaxTokens)).Fail? ==>
              r == ErrorTag + oracle(call, Request(model, prompt, MaxTokens)).message
  {
    Reply(oracle(call, Request(model, prompt, MaxTokens)))
  }

  /** A failure reply gives back the exception text it was built from, so no
      two failures with different messages produce the same reply. */
  lemma FailureReplyInjective(m1: string, m2: string)
    ensures Reply(Fail(m1)) == Reply(Fail(m2)) <==> m1 == m2
  {
    if Reply(Fail(m1)) == Reply(Fail(m2)) {
      calc {
        m1;
        Reply(Fail(m1))[|ErrorTag|..];
        Reply(Fail(m2))[|ErrorTag|..];
        m2;
      }
    }
  }
}
