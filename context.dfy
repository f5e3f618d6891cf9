/** The context accumulator: the record of earlier (question, answer) pairs
    and the prompt template that carries it into the next question. */
module Context {
  import Seqs

  /** One completed step of a chain: the sub-prompt and the reply it received. */
  datatype Exchange = Exchange(query: string, response: string)

  /** A prompt template with two holes: the context goes between `head` and
      `middle`, the question between `middle` and `tail`. */
  datatype Template = Template(head: string, middle: string, tail: string)

  /** The follow-up template, with its lines indented by `indent`. */
  function FollowUpTemplate(indent: string): Template
  {
    Template("\n" + indent + "Given this context from previous responses: \n" + indent,
             "\n" + indent + "\n" + indent
             + "Please address this follow-up question while considering the above context:\n" + indent,
             "\n" + indent)
  }

  /** The template inside `process_prompt_chain`, indented by twelve spaces. */
  const ChainTemplate: Template := FollowUpTemplate("            ")

  /** The template of the chat-input handler's own loop, indented by twenty spaces. */
  const UiTemplate: Template := FollowUpTemplate("                    ")

  /** The text one exchange adds to the context. */
  function Record(e: Exchange): string
  {
    "\nQ: " + e.query + "\nA: " + e.response + "\n"
  }

  /** The context after the exchanges of `log`, in order: the empty string
      followed by one record per exchange. */
  function Render(log: seq<Exchange>): string
    decreases |log|
  {
    if |log| == 0 then "" else Render(log[..|log| - 1]) + Record(log[|log| - 1])
  }

  /** The follow-up prompt: the context presented as prior context, then the
      question to address while considering it. Both are embedded verbatim. */
  function Wrap(t: Template, context: string, prompt: string): string
  {
    t.head + context + t.middle + prompt + t.tail
  }

  /** The follow-up prompt holds the context and the question verbatim, at
      positions fixed by the template and the context's length. */
  lemma WrapEmbeds(t: Template, context: string, prompt: string)
    ensures var r := Wrap(t, context, prompt);
            && |r| == |t.head| + |context| + |t.middle| + |prompt| + |t.tail|
            && r[|t.head|..|t.head| + |context|] == context
            && r[|t.head| + |context| + |t.middle|..|r| - |t.tail|] == prompt
  {
    var r := Wrap(t, context, prompt);
    assert r == t.head + context + (t.middle + prompt + t.tail);
    assert r == (t.head + context + t.middle) + prompt + t.tail;
  }

  /** The prompt actually sent for a sub-prompt: unchanged while the context
      is empty, wrapped with the context otherwise. Either way the sub-prompt
      reaches the backend verbatim, alone or at the template's fixed position,
      and a non-empty context stands verbatim before it. */
  function ContextPrompt(t: Template, context: string, prompt: string): (r: string)
    ensures r == prompt ||
            (&& |r| == |t.head| + |context| + |t.middle| + |prompt| + |t.tail|
             && r[|t.head| + |context| + |t.middle|..|r| - |t.tail|] == prompt)
    ensures |context| > 0 ==>
              && |r| == |t.head| + |context| + |t.middle| + |prompt| + |t.tail|
              && r[|t.head|..|t.head| + |context|] == context
  {
    WrapEmbeds(t, context, prompt);
    if |context| > 0 then Wrap(t, context, prompt) else prompt
  }

  /** The context is empty exactly when no exchange has happened yet, so the
      emptiness test on the context tells the first step from the later ones. */
  lemma RenderEmpty(log: seq<Exchange>)
    ensures |Render(log)| == 0 <==> |log| == 0
  {
    if |log| > 0 {
      assert |Record(log[|log| - 1])| > 0;
    }
  }

  /** Rendering two logs one after the other is rendering their concatenation:
      the context is exactly the records of its exchanges, in order. */
  lemma {:induction false} RenderAppend(a: seq<Exchange>, b: seq<Exchange>)
    ensures Render(a + b) == Render(a) + Render(b)
    decreases |b|
  {
    if |b| == 0 {
      assert a + b == a;
    } else {
      var b', e := b[..|b| - 1], b[|b| - 1];
      Seqs.AppendInit(a, b);
      RenderAppend(a, b');
      Seqs.AppendAssoc(Render(a), Render(b'), Record(e));
    }
  }
}
