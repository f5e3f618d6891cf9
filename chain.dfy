/** `process_prompt_chain`: run sub-prompts one after another, each sent with
    the record of every earlier exchange, and collect the exchanges in order. */
module Chain {
  import Seqs
  import opened Backend
  import opened Context

  /** The exchange of step `n - 1` of a chain over `prompts`, filled into the
      template `t`, whose backend calls are numbered from `first`: the
      sub-prompt paired with the reply it receives. */
  function Step(t: Template, prompts: seq<string>, oracle: Oracle, first: nat, n: nat): Exchange
    requires 0 < n <= |prompts|
    decreases n, 1
  {
    Exchange(prompts[n - 1], Answer(t, prompts, oracle, first, n))
  }

  /** The reply of step `n - 1`: the sub-prompt is sent with the context
      rendered from the steps before it, as call `first + n - 1`, to the
      default model. */
  function Answer(t: Template, prompts: seq<string>, oracle: Oracle, first: nat, n: nat): string
    requires 0 < n <= |prompts|
    decreases n, 0
  {
    var context := Render(Chain(t, prompts, oracle, first, n - 1));
    GetAiResponse(oracle, first + n - 1, ContextPrompt(t, context, prompts[n - 1]), DefaultModel)
  }

  /** The exchanges of the first `n` steps of the chain. */
  function Chain(t: Template, prompts: seq<string>, oracle: Oracle, first: nat, n: nat): (r: seq<Exchange>)
    requires n <= |prompts|
    ensures |r| == n
    decreases n, 2
  {
    if n == 0 then [] else Chain(t, prompts, oracle, first, n - 1) + [Step(t, prompts, oracle, first, n)]
  }

  /** The exchanges of the whole chain. */
  function Exchanges(t: Template, prompts: seq<string>, oracle: Oracle, first: nat): seq<Exchange>
  {
    Chain(t, prompts, oracle, first, |prompts|)
  }

  /** The context step `i` is built with. */
  function ContextAt(t: Template, prompts: seq<string>, oracle: Oracle, first: nat, i: nat): string
    requires i <= |prompts|
  {
    Render(Chain(t, prompts, oracle, first, i))
  }

  /** The prompt sent at step `i`. */
  function SentPrompt(t: Template, prompts: seq<string>, oracle: Oracle, first: nat, i: nat): string
    requires i < |prompts|
  {
    ContextPrompt(t, ContextAt(t, prompts, oracle, first, i), prompts[i])
  }

  /** The chain has one exchange per prompt, in the order of the prompts. */
  lemma {:induction false} ChainQueries(t: Template, prompts: seq<string>, oracle: Oracle, first: nat, n: nat)
    requires n <= |prompts|
    ensures forall i :: 0 <= i < n ==> Chain(t, prompts, oracle, first, n)[i].query == prompts[i]
  {
    if n > 0 {
      ChainQueries(t, prompts, oracle, first, n - 1);
      var prev, all := Chain(t, prompts, oracle, first, n - 1), Chain(t, prompts, oracle, first, n);
      assert all == prev + [Step(t, prompts, oracle, first, n)];
      forall i | 0 <= i < n
        ensures all[i].query == prompts[i]
      {
        if i < n - 1 {
          assert all[i] == prev[i];
        }
      }
    }
  }

  /** Exchange `k` of a run is fixed once step `k` has been taken: later steps
      only add to the end. */
  lemma {:induction false} ChainStable(t: Template, prompts: seq<string>, oracle: Oracle, first: nat, k: nat, n: nat)
    requires k < n <= |prompts|
    ensures Chain(t, prompts, oracle, first, n)[k] == Step(t, prompts, oracle, first, k + 1)
    decreases n
  {
    if k < n - 1 {
      ChainStable(t, prompts, oracle, first, k, n - 1);
      assert Chain(t, prompts, oracle, first, n)[k] == Chain(t, prompts, oracle, first, n - 1)[k];
    }
  }

  /** A step never looks ahead: the first `k` exchanges of a longer run are
      the exchanges of a run of `k` steps. */
  lemma ChainPrefix(t: Template, prompts: seq<string>, oracle: Oracle, first: nat, k: nat, n: nat)
    requires k <= n <= |prompts|
    ensures Chain(t, prompts, oracle, first, n)[..k] == Chain(t, prompts, oracle, first, k)
  {
    var all, part := Chain(t, prompts, oracle, first, n), Chain(t, prompts, oracle, first, k);
    forall j | 0 <= j < k
      ensures all[..k][j] == part[j]
    {
      ChainStable(t, prompts, oracle, first, j, n);
      ChainStable(t, prompts, oracle, first, j, k);
    }
  }

  /** What step `i` does: its exchange pairs the sub-prompt with the backend's
      reply, as call `first + i` and with the default model, to the prompt
      sent at that step. */
  lemma ChainStep(t: Template, prompts: seq<string>, oracle: Oracle, first: nat, i: nat)
    requires i < |prompts|
    ensures Exchanges(t, prompts, oracle, first)[i] ==
            Exchange(prompts[i], GetAiResponse(oracle, first + i, SentPrompt(t, prompts, oracle, first, i), DefaultModel))
  {
    var prev := Chain(t, prompts, oracle, first, i);
    var next := Chain(t, prompts, oracle, first, i + 1);
    assert next == prev + [Step(t, prompts, oracle, first, i + 1)];
    ChainPrefix(t, prompts, oracle, first, i + 1, |prompts|);
    assert Exchanges(t, prompts, oracle, first)[i] == next[i];
  }

  /** The prompt sent at step 0 is the sub-prompt itself; at every later step
      it is the sub-prompt wrapped with the context of the steps before it. */
  lemma SentPromptShape(t: Template, prompts: seq<string>, oracle: Oracle, first: nat, i: nat)
    requires i < |prompts|
    ensures i == 0 ==> SentPrompt(t, prompts, oracle, first, i) == prompts[0]
    ensures i > 0 ==> SentPrompt(t, prompts, oracle, first, i) ==
                      Wrap(t, ContextAt(t, prompts, oracle, first, i), prompts[i])
  {
    RenderEmpty(Chain(t, prompts, oracle, first, i));
  }

  /** The context at step `i` is rendered from exactly the first `i`
      exchanges of the result, and each step adds the record of its own
      exchange to it. */
  lemma ContextGrows(t: Template, prompts: seq<string>, oracle: Oracle, first: nat, i: nat)
    requires i < |prompts|
    ensures ContextAt(t, prompts, oracle, first, 0) == ""
    ensures ContextAt(t, prompts, oracle, first, i) == Render(Exchanges(t, prompts, oracle, first)[..i])
    ensures ContextAt(t, prompts, oracle, first, i + 1) ==
            ContextAt(t, prompts, oracle, first, i) + Record(Exchanges(t, prompts, oracle, first)[i])
  {
    var prev := Chain(t, prompts, oracle, first, i);
    var next := Chain(t, prompts, oracle, first, i + 1);
    assert next == prev + [Step(t, prompts, oracle, first, i + 1)];
    assert next[..i] == prev;
    ChainPrefix(t, prompts, oracle, first, i, |prompts|);
    ChainPrefix(t, prompts, oracle, first, i + 1, |prompts|);
    assert Exchanges(t, prompts, oracle, first)[i] == next[i];
  }

  /** A backend failure at step `k` does not stop the chain: every prompt still
      has its exchange, step `k` answers with the error reply, and the next
      step is sent with that error reply as the answer of step `k`. */
  lemma FailureIsolated(t: Template, prompts: seq<string>, oracle: Oracle, first: nat, k: nat, msg: string)
    requires k < |prompts|
    requires oracle(first + k, Request(DefaultModel, SentPrompt(t, prompts, oracle, first, k), MaxTokens)) == Fail(msg)
    ensures |Exchanges(t, prompts, oracle, first)| == |prompts|
    ensures Exchanges(t, prompts, oracle, first)[k] == Exchange(prompts[k], ErrorTag + msg)
    ensures k + 1 < |prompts| ==>
              SentPrompt(t, prompts, oracle, first, k + 1) ==
              Wrap(t, ContextAt(t, prompts, oracle, first, k) + Record(Exchange(prompts[k], ErrorTag + msg)), prompts[k + 1])
  {
    ChainStep(t, prompts, oracle, first, k);
    if k + 1 < |prompts| {
      ContextGrows(t, prompts, oracle, first, k);
      SentPromptShape(t, prompts, oracle, first, k + 1);
    }
  }

  /** The loop of `process_prompt_chain`: the context starts empty, each
      step sends its prompt (wrapped once the context is not empty), appends
      the exchange and extends the context by the record of that exchange. */
  method RunChain(t: Template, prompts: seq<string>, oracle: Oracle, first: nat) returns (responses: seq<Exchange>)
    ensures responses == Exchanges(t, prompts, oracle, first)
  {
    responses := [];
    var context := "";
    for i := 0 to |prompts|
      invariant responses == Chain(t, prompts, oracle, first, i)
      invariant context == Render(responses)
    {
      var prompt := prompts[i];
      var contextPrompt;
      if |context| > 0 {
        contextPrompt := Wrap(t, context, prompt);
      } else {
        contextPrompt := prompt;
      }
      var response := GetAiResponse(oracle, first + i, contextPrompt, DefaultModel);
      assert Exchange(prompt, response) == Step(t, prompts, oracle, first, i + 1);
      assert (responses + [Exchange(prompt, response)])[..i] == responses;
      responses := responses + [Exchange(prompt, response)];
      context := context + Record(Exchange(prompt, response));
    }
  }

  /** `process_prompt_chain`: the loop with its own template, as the first
      backend calls of a turn. */
  method ProcessPromptChain(prompts: seq<string>, oracle: Oracle) returns (responses: seq<Exchange>)
    ensures responses == Exchanges(ChainTemplate, prompts, oracle, 0)
  {
    responses := RunChain(ChainTemplate, prompts, oracle, 0);
  }
}
