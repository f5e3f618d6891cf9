/** `ai_prompt_decomposition`: ask the backend to split a query into an
    ordered list of sub-queries, pick the bracketed part out of its reply and
    parse it, falling back to the query itself when anything goes wrong. */
module Decomposition {
  import opened Backend
  import opened PyStr

  /** What `json.loads` makes of a text: it raises, or it yields a list of
      strings, or it yields some other JSON value. */
  datatype Json = Invalid | JsonList(items: seq<string>) | JsonOther

  /** The JSON parser, left abstract. */
  type Loads = string -> Json

  /** A parser that, like `json.loads`, rejects the empty text. */
  ghost predicate RejectsEmpty(loads: Loads)
  {
    loads("") == Invalid
  }

  /** A parser that, like `json.loads`, reads a text opening with `[` as an
      array or not at all. */
  ghost predicate ArrayOrInvalid(loads: Loads)
  {
    forall s :: |s| > 0 && s[0] == '[' ==> !loads(s).JsonOther?
  }

  /** A prompt with one hole for the query. */
  datatype Frame = Frame(before: string, after: string)

  /** The prompt a frame makes of a query, which stands in it verbatim. */
  function Embed(f: Frame, query: string): (r: string)
    ensures |r| == |f.before| + |query| + |f.after|
    ensures r[|f.before|..|r| - |f.after|] == query
  {
    var r := f.before + query + f.after;
    assert r[|f.before|..|r| - |f.after|] == query;
    r
  }

  /** The instruction asking for a JSON array of sub-queries; the query
      stands between double quotes. */
  const DecompositionFrame: Frame :=
    Frame("\n    Break down this complex query into smaller, logically connected sub-queries. Consider:\n"
          + "    1. Dependencies between questions\n"
          + "    2. Context needed for each sub-query\n"
          + "    3. Logical flow of information\n"
          + "    \n"
          + "    Complex query: \"",
          "\"\n    \n"
          + "    Return ONLY a JSON array of strings, where each string is a sub-query. Format:\n"
          + "    [\"sub-query 1\", \"sub-query 2\", ...]\n"
          + "    \n"
          + "    The sub-queries should build upon each other naturally and maintain context.\n"
          + "    ")

  /** The decomposition request: a fixed model, the query in the frame, the
      token ceiling. */
  function DecompositionRequest(f: Frame, query: string): Request
  {
    Request("gpt-4o-mini", Embed(f, query), MaxTokens)
  }

  /** `start_idx`: where the first `[` stands, or -1. */
  function StartIndex(text: string): int
  {
    Find(text, '[')
  }

  /** `end_idx`: one past the last `]`, or 0 when there is none; never negative. */
  function EndIndex(text: string): (r: nat)
    ensures r <= |text|
  {
    RFind(text, ']') + 1
  }

  /** The text handed to the parser: `text[start_idx:end_idx]`. */
  function Candidate(text: string): string
    requires StartIndex(text) != -1
  {
    Slice(text, StartIndex(text), EndIndex(text))
  }

  /** What the decomposition makes of the backend's `reply`: a failure, a
      reply without `[` or a candidate the parser rejects give the query
      alone; a candidate that parses to a list gives that list. */
  function Decompose(query: string, reply: Outcome, loads: Loads): (r: seq<string>)
    ensures reply.Fail? ==> r == [query]
    ensures reply.Ok? && '[' !in reply.content ==> r == [query]
    ensures r == [query] || r == [] ||
            (reply.Ok? && '[' in reply.content && loads(Candidate(reply.content)) == JsonList(r))
  {
    match reply
    case Fail(_) => [query]
    case Ok(text) =>
      var startIdx := StartIndex(text);
      var endIdx := EndIndex(text);
      if startIdx != -1 && endIdx != -1 then
        match loads(Slice(text, startIdx, endIdx))
        case Invalid => [query]
        case JsonList(subPrompts) => subPrompts
        case JsonOther => []
      else
        [query]
  }

  /** `ai_prompt_decomposition` with the instruction frame `f`: the backend is
      asked once, as call 0 of the turn, and its reply is decomposed. A failed
      call or a reply without `[` gives the query alone; otherwise the parse
      of the candidate decides: a list is returned as it is, a non-list gives
      the empty list, a rejected text gives the query alone. */
  function AiPromptDecomposition(f: Frame, query: string, oracle: Oracle, loads: Loads): (r: seq<string>)
    ensures var reply := oracle(0, DecompositionRequest(f, query));
            && (reply.Fail? ==> r == [query])
            && (reply.Ok? && '[' !in reply.content ==> r == [query])
            && (reply.Ok? && '[' in reply.content ==>
                  && (loads(Candidate(reply.content)).JsonList? ==> r == loads(Candidate(reply.content)).items)
                  && (loads(Candidate(reply.content)).JsonOther? ==> r == [])
                  && (loads(Candidate(reply.content)).Invalid? ==> r == [query]))
  {
    Decompose(query, oracle(0, DecompositionRequest(f, query)), loads)
  }

  /** The `end_idx != -1` half of the guard never fails: only the presence of
      a `[` decides whether extraction is attempted. */
  lemma GuardIsStartOnly(text: string)
    ensures (StartIndex(text) != -1 && EndIndex(text) != -1) <==> '[' in text
  {
  }

  /** The candidate runs from the first `[` through the last `]`, inclusive;
      when there is no `]`, or the last one stands before the first `[`, it is
      empty. */
  lemma CandidateSpan(text: string)
    requires '[' in text
    ensures var first, last := Find(text, '['), RFind(text, ']');
            && text[first] == '[' && '[' !in text[..first]
            && (first < last ==>
                  && text[last] == ']' && ']' !in text[last + 1..]
                  && Candidate(text) == text[first..last + 1])
            && (last < first ==> Candidate(text) == [])
  {
  }

  /** A candidate that is not empty opens with `[` and closes with `]`. */
  lemma CandidateBrackets(text: string)
    requires '[' in text && Candidate(text) != []
    ensures Candidate(text)[0] == '[' && Candidate(text)[|Candidate(text)| - 1] == ']'
  {
    CandidateSpan(text);
  }

  /** A reply with a `[` but no `]` after it leaves an empty candidate, which
      the parser rejects, so the result is the query alone. */
  lemma EmptyCandidateFallsBack(query: string, text: string, loads: Loads)
    requires RejectsEmpty(loads)
    requires '[' in text && RFind(text, ']') < Find(text, '[')
    ensures Decompose(query, Ok(text), loads) == [query]
  {
    CandidateSpan(text);
  }

  /** A candidate that parses to a list is returned as it is: same elements,
      same order. One that parses to something else yields the empty list,
      and one the parser rejects yields the query alone. */
  lemma ParsedResultReturned(query: string, text: string, loads: Loads)
    requires '[' in text
    ensures loads(Candidate(text)).JsonList? ==> Decompose(query, Ok(text), loads) == loads(Candidate(text)).items
    ensures loads(Candidate(text)).JsonOther? ==> Decompose(query, Ok(text), loads) == []
    ensures loads(Candidate(text)).Invalid? ==> Decompose(query, Ok(text), loads) == [query]
  {
  }

  /** The decomposition is empty exactly when the reply had a `[` and its
      candidate parsed to a non-list or to the empty list. */
  lemma EmptyResultIff(query: string, reply: Outcome, loads: Loads)
    ensures Decompose(query, reply, loads) == [] <==>
            && reply.Ok? && '[' in reply.content
            && loads(Candidate(reply.content)) in {JsonOther, JsonList([])}
  {
  }

  /** With a parser that behaves like `json.loads`, the non-list branch is never
      taken, and the only way to an empty decomposition is a reply whose
      candidate parses to the empty array. */
  lemma EmptyOnlyFromEmptyArray(query: string, reply: Outcome, loads: Loads)
    requires RejectsEmpty(loads) && ArrayOrInvalid(loads)
    ensures Decompose(query, reply, loads) == [] <==>
            reply.Ok? && '[' in reply.content && loads(Candidate(reply.content)) == JsonList([])
  {
    if reply.Ok? && '[' in reply.content {
      var c := Candidate(reply.content);
      if c != [] {
        CandidateBrackets(reply.content);
        assert !loads(c).JsonOther?;
      }
    }
  }

  /** The reply `[]` decomposes into no sub-query at all: the result is not
      always a non-empty list. */
  lemma EmptyArrayReply(query: string, loads: Loads)
    requires loads("[]") == JsonList([])
    ensures Decompose(query, Ok("[]"), loads) == []
  {
    var text := "[]";
    assert Find(text, '[') == 0;
    assert RFind(text, ']') == 1;
    assert Slice(text, 0, 2) == text;
  }
}
