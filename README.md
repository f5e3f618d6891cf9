# Smart Prompt Decomposition — a Dafny model

SmartPromptDecomposition is a chat assistant. When its "Smart Prompt
Splitting" switch is on, it does not answer a question directly. It first
asks a language model to break the question into an ordered list of
sub-queries, which the model returns as a JSON array. It then answers the
sub-queries one after another. Each sub-query is sent together with a record
of every earlier question and answer, and each answer is shown as a
"Part i" message. When the switch is off, or when the decomposition yields at
most one sub-query, one direct call to the selected model answers the
question.

This project models that engine in Dafny, in six modules:

- `Backend` (`backend.dfy`): the backend and `get_ai_response`. The
  completion service is an oracle. It is given the number of the call within
  a chat turn and the request (model, prompt, token ceiling), and it answers
  with either `Ok(content)` or `Fail(message)`. The wrapper turns a failure
  into the reply `"Error: " + message`, so a failure never propagates
  outward.
- `PyStr` (`pystr.dfy`): Python's `str.find`, `str.rfind` and slicing with
  non-negative bounds, including the clamping of bounds past the end.
- `Decomposition` (`decomposition.dfy`): `ai_prompt_decomposition`. The reply
  is cut from the first `[` to one past the last `]`, the result is handed to
  an abstract `json.loads`, and the branches are kept exactly as written.
- `Context` and `Chain` (`context.dfy`, `chain.dfy`): `process_prompt_chain`.
  - A recursive specification fixes the exchange (sub-query and reply) of
    every step.
  - `RunChain` is the loop itself. It grows the response list and the
    context string, and is proved equal to that specification.
  - Lemmas state the prompt sent at each step, the prefix-context invariant,
    and what happens after a failure.
- `App` (`app.dfy`): the chat-input handler. It covers the dispatch between
  the chain and a direct call, the loop copy inside the handler, and the
  "Part i" messages that loop stores.
- `Seqs` (`seqs.dfy`) holds two generic sequence facts used by the proofs.

The prompt templates are data. `Template(head, middle, tail)` is the
follow-up template and `Frame(before, after)` is the decomposition
instruction. Their exact wording is in the constants `ChainTemplate`,
`UiTemplate` and `DecompositionFrame`. The proofs hold for every template,
and the wrapper members `ProcessPromptChain` and `OnChatInput` plug in the
wording as written.

Behaviours of the code worth knowing, all modelled as written:

- **Empty decompositions.** The code returns `[]` when the candidate parses
  to something other than a list (app.py:58), and also when it parses to the
  empty array `[]`. The handler then answers the original prompt directly
  (app.py:160, 189-194). `EmptyResultIff`, `EmptyOnlyFromEmptyArray` and
  `EmptyArrayReply` state exactly when this happens.
- **The chain's model.** Both copies of the chain call the backend without a
  model argument (app.py:82, 179). They therefore use the default
  `gpt-4o-mini`, not the model selected in the sidebar. Only the direct calls
  (app.py:191, 197) pass the selected model.
- **A one-element decomposition.** The handler then answers the ORIGINAL
  prompt, not the single sub-query (app.py:191).
- **The two chain loops.** The handler does not call `process_prompt_chain`.
  It runs its own copy of the loop (app.py:164-188), whose template is
  indented by twenty spaces instead of twelve. Both copies are `RunChain`
  with a different template.

## Model

| member | source | states |
|---|---|---|
| Backend.Reply | app.py:17-25 | on success the reply is the content unchanged; on failure it is exactly the `Error: ` tag followed by the exception text, with the text recoverable after the tag |
| Backend.GetAiResponse | app.py:15-25 | one request with the given prompt, the given model and the 500-token ceiling; on success the content unchanged, on failure `"Error: " + message`; there is no failing outcome |
| Backend.FailureReplyInjective | app.py:24-25 | two failure replies are equal exactly when their exception texts are equal |
| PyStr.Find | app.py:53 | the result is -1 exactly when the character is absent; otherwise the character stands there and nowhere before |
| PyStr.RFind | app.py:54 | the result is -1 exactly when the character is absent; otherwise the character stands there and nowhere after |
| PyStr.Slice | app.py:56 | Python slicing `s[lo:hi]`: empty exactly when `hi <= lo` or `lo` is past the end, the plain subsequence when both bounds are in range, cut at the end when `hi` is past it |
| Decomposition.Embed | app.py:29-41 | the decomposition prompt holds the query verbatim between the instruction's two parts |
| Decomposition.DecompositionRequest | app.py:44-48 | computes the decomposition request: the fixed model `gpt-4o-mini`, the query embedded in the frame, the 500-token ceiling |
| Decomposition.StartIndex | app.py:53 | computes `start_idx`: the position of the first `[` of the reply, or -1 |
| Decomposition.EndIndex | app.py:54 | `rfind(']') + 1` is a natural number no larger than the reply's length |
| Decomposition.Candidate | app.py:56 | computes `json_str`: the Python slice of the reply from `start_idx` to `end_idx` |
| Decomposition.Decompose | app.py:50-62 | a failed call, or a reply without `[`, gives the query alone; every result is the query alone, the empty list, or exactly the list the candidate parses to |
| Decomposition.AiPromptDecomposition | app.py:43-62 | for the reply to call 0: a failed call gives the query alone, a reply without `[` gives the query alone, and otherwise a candidate parsed to a list gives that list verbatim, a non-list gives `[]` and a rejected candidate gives the query alone |
| Decomposition.GuardIsStartOnly | app.py:53-55 | the guard `start_idx != -1 and end_idx != -1` holds exactly when the reply contains `[`; its second half never fails |
| Decomposition.CandidateSpan | app.py:53-56 | the candidate runs from the first `[` through the last `]` inclusive, and is empty when the last `]` stands before the first `[` or there is none |
| Decomposition.CandidateBrackets | app.py:53-56 | a non-empty candidate opens with `[` and closes with `]` |
| Decomposition.EmptyCandidateFallsBack | app.py:53-62 | with a `[` but no `]` after it, the empty candidate is rejected by the parser and the result is the query alone |
| Decomposition.ParsedResultReturned | app.py:57-58 | a candidate parsed to a list gives that list verbatim; a non-list gives `[]`; a rejected candidate gives the query alone |
| Decomposition.EmptyResultIff | app.py:55-59 | the result is empty if and only if the reply had a `[` and its candidate parsed to a non-list or to the empty list |
| Decomposition.EmptyOnlyFromEmptyArray | app.py:53-62 | with a parser that rejects the empty text and reads `[...]` as an array or not at all, the result is empty if and only if the candidate parses to the empty array |
| Decomposition.EmptyArrayReply | app.py:53-58 | the reply `[]` yields the empty decomposition, so the result is not always a non-empty list |
| Context.Record | app.py:86 | computes the text one exchange adds to the context: `\nQ: `, the question, `\nA: `, the answer, a newline |
| Context.Render | app.py:67-86 | computes the context after a log of exchanges: the empty string followed by one record per exchange, in order |
| Context.Wrap | app.py:72-78 | computes the follow-up prompt: the template's head, the context, the middle, the question and the tail |
| Context.WrapEmbeds | app.py:72-78 | the follow-up prompt holds the context and the question verbatim at positions fixed by the template |
| Context.ContextPrompt | app.py:71-80 | the sub-prompt always reaches the backend verbatim, either alone or at the template's fixed position after the context; with a non-empty context the prompt sent has the wrapped length and holds the context verbatim after the template's head |
| Context.RenderEmpty | app.py:67-71 | the context is empty if and only if no exchange has happened, so the emptiness test tells step 0 from the later steps |
| Context.RenderAppend | app.py:86 | the context of two runs of exchanges one after the other is the concatenation of their contexts: it is exactly the records of its exchanges, in order |
| Chain.Answer | app.py:82 | computes the reply of a step: the backend's answer, as the step's call and to the default model, to the sub-prompt with the context of the earlier steps |
| Chain.Chain | app.py:66-88 | a run of `n` steps has exactly `n` exchanges |
| Chain.ChainQueries | app.py:66-88 | exchange `i` carries sub-prompt `i`: one exchange per prompt, in input order |
| Chain.ChainStable | app.py:83 | exchange `k` of a run is the exchange of step `k`, whatever steps come after it; responses are only appended |
| Chain.ChainPrefix | app.py:83 | the first `k` exchanges of a longer run are the exchanges of a run of `k` steps |
| Chain.ChainStep | app.py:69-83 | exchange `i` pairs sub-prompt `i` with the reply to the prompt sent at step `i`, made as call `first + i` to the default model |
| Chain.SentPromptShape | app.py:71-80 | the prompt sent at step 0 is the sub-prompt itself; at every later step it is the sub-prompt wrapped with that step's context |
| Chain.ContextGrows | app.py:67-86 | the context starts empty, the context at step `i` is rendered from exactly the first `i` exchanges of the result, and each step adds the record of its own exchange |
| Chain.FailureIsolated | app.py:82-86 | a failure at step `k` does not stop the chain: every prompt still has its exchange, step `k` answers `"Error: " + message`, and step `k + 1` is sent with that error as the answer of step `k` in its context |
| Chain.RunChain | app.py:66-88 | the loop returns exactly the exchanges of the specification, keeping the invariant that the context is the rendering of the responses so far |
| Chain.ProcessPromptChain | app.py:64-88 | `process_prompt_chain` with its twelve-space template returns the exchanges of the specification, its calls numbered from 0 |
| App.Decimal | app.py:184 | `str(i)` is never empty |
| App.DecimalDenotes | app.py:184 | the part label is the decimal numeral of the part number: digits only, no leading zero, denoting the number |
| App.PartContent | app.py:184 | computes the stored content of a part: `**Part `, the part number, `**: `, the sub-query, a blank line, the reply |
| App.PartMessages | app.py:165-185 | computes the assistant messages of a chained answer: one per exchange, in order, numbered from 1 |
| App.Turn | app.py:149-200 | a turn appends the user's message first, and only assistant messages after it, at least one |
| App.TurnDirect | app.py:195-200 | with splitting off, the answer is one call 0 to the selected model on the prompt |
| App.TurnUnsplit | app.py:189-194 | with splitting on and at most one sub-query, the answer is one call 1 to the selected model on the ORIGINAL prompt |
| App.TurnChained | app.py:160-188 | with several sub-queries there is one message per sub-query, in order; message `i + 1` is "Part i + 1" with sub-query `i` and the default model's reply, as call `1 + i`, to the prompt sent at step `i` |
| App.HandleChatInput | app.py:149-200 | the handler's if/else, with its own copy of the chain loop, appends exactly the messages of the turn specification |
| App.OnChatInput | app.py:149-200 | the handler with its wording as written appends exactly the messages of the turn specification |

## Left out

- The Streamlit UI (app.py:1-13, 90-103, 143-153) is left out: the title, the sidebar widgets, the chat-history display and the session-state initialisation. The handler's mutation of `st.session_state.messages` is modelled as the sequence of messages one turn appends.
- `format_message_content` (app.py:105-141) is left out. It renders code, LaTeX and markdown into widgets using Python regular expressions, and it computes nothing the rest of the program uses.
- The display side effects of a turn are left out: `st.markdown`, the italic sub-query in the on-screen "Part" line (app.py:181), `st.info`, `st.spinner`, and `st.error` in the decomposition's exception handler (app.py:61). Only the stored messages are modelled.
- `litellm.completion` (app.py:18, 44) is a network call and is modelled only as the oracle. The oracle is indexed by the call's number within the turn, so repeated requests may receive different answers. A failure here means any exception the call raises. On the decomposition path it also covers an access to the reply that raises, since the same handler catches both. A `None` content there makes `.find` raise (app.py:51-53), and the fallback answers (app.py:60-62). So on that path a `None` content is the `Fail` outcome.
- On the direct and chain path, `get_ai_response` returns a `None` content as it is (app.py:23). The model does not represent `None`: every `Ok` content is a string.
- `json.loads` (app.py:57) is an abstract function from text to one of three outcomes: it raises, a list of strings, or another JSON value. A parsed list whose elements are not strings is not represented. `RejectsEmpty` and `ArrayOrInvalid` state the two facts about the real parser that some lemmas take as preconditions.
- Decomposition.Decompose: it is stated against the abstract parser, so "the candidate is rejected" means whatever `json.loads` rejects. The grammar of JSON is not modelled.
- The handler's guard `if prompt := st.chat_input(...)` (app.py:149) is not modelled: `Turn` and `HandleChatInput` take a prompt that has arrived, and `st.chat_input` yields only non-empty text or `None`, so an empty prompt never reaches the handler.
- The default value of the `model` parameter (app.py:15) is the constant `DefaultModel`. A caller that passes no model is modelled as passing it.
