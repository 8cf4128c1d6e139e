/** The chat orchestrator (services/api/services/chat_orchestrator.py): the
    user's message is sent to the knowledge service's search, the first five
    hits are rendered into the prompt, the inference service generates the
    answer, and every hit becomes a citation. Both HTTP calls are parameters
    of the model; their failures become fixed fallbacks, never errors. */
module Orchestrator {
  import opened Common
  import opened Text

  /** One entry of the search reply's `chunks`; a key the entry lacks is None. */
  datatype ContextChunk = ContextChunk(docId: Option<string>, chunkId: Option<string>, text: Option<string>,
                                       source: Option<string>, score: Option<real>)

  /** The search reply's body: not JSON, or a JSON object with or without `chunks`. */
  datatype SearchBody = SearchNotJson | SearchJson(chunks: Option<seq<ContextChunk>>)

  /** `{"query": ..., "user_id": ..., "top_k": ...}` posted to `/search`. */
  datatype SearchRequest = SearchRequest(query: string, userId: string, topK: int)

  /** The completion reply's body: not JSON, or JSON whose
      `choices[0].message.content` is present or not. */
  datatype CompletionBody = CompletionNotJson | CompletionJson(content: Option<string>)

  /** The chat-completions request: model, system and user prompt,
      temperature and token limit. */
  datatype CompletionRequest = CompletionRequest(model: string, systemPrompt: string, userPrompt: string,
                                                 temperature: real, maxTokens: nat)

  datatype Citation = Citation(docId: string, chunkId: string, text: string, source: string, score: real)

  /** `{"content": ..., "citations": ...}`. */
  datatype ChatResult = ChatResult(content: string, citations: seq<Citation>)

  const CONTEXT_LIMIT: nat := 5
  const CITATION_CHARS: nat := 200
  const SEARCH_TOP_K := 10
  const INSTRUCTION := "Provide a helpful answer based on the context above. Include citations to specific sources."
  const BUSY_REPLY := "I'm sorry, I'm having trouble generating a response right now. Please try again."
  const ERROR_REPLY := "I apologize, but I encountered an error. Please try again."

  const SYSTEM_PROMPT :=
    "You are an AI Career Mentor with deep knowledge in career development, skills assessment, and professional growth.\n\n"
    + "Your role:\n"
    + "- Provide personalized, actionable career guidance\n"
    + "- Ground recommendations in provided knowledge base\n"
    + "- Be specific with timelines, resources, and next steps\n"
    + "- Always cite sources when making recommendations\n"
    + "- Ask clarifying questions when user intent is unclear\n\n"
    + "Guidelines:\n"
    + "- Use bullet points for clarity\n"
    + "- Include \"Why this matters\" explanations\n"
    + "- Suggest 1-2 concrete next actions\n"
    + "- Reference specific documents/resources when available"

  /** `_retrieve_context`: the reply's chunks, or none when the call fails,
      the status is not 200, the body is not JSON or has no `chunks`. */
  function Retrieve(reply: Reply<SearchBody>): (r: seq<ContextChunk>)
    ensures !(reply.Response? && reply.status == 200) ==> r == []
    ensures reply.Response? && reply.status == 200 && reply.body.SearchJson? && reply.body.chunks.Some? ==>
      r == reply.body.chunks.value
    ensures reply.Response? && reply.status == 200 && !(reply.body.SearchJson? && reply.body.chunks.Some?) ==>
      r == []
  {
    if reply.TransportError? || reply.status != 200 then []
    else match reply.body
      case SearchNotJson => []
      case SearchJson(chunks) => chunks.GetOr([])
  }

  /** `f"[Source: {source}]\n{text}"` with the defaults. */
  function RenderChunk(c: ContextChunk): string {
    "[Source: " + c.source.GetOr("Unknown") + "]\n" + c.text.GetOr("")
  }

  function Renders(cs: seq<ContextChunk>): (r: seq<string>)
    ensures |r| == |cs| && forall i :: 0 <= i < |cs| ==> r[i] == RenderChunk(cs[i])
  {
    if |cs| == 0 then [] else Renders(cs[..|cs| - 1]) + [RenderChunk(cs[|cs| - 1])]
  }

  /** The blocks of a prefix of the chunks are a prefix of the blocks. */
  lemma RendersPrefix(cs: seq<ContextChunk>, i: nat)
    requires i <= |cs|
    ensures Renders(cs)[..i] == Renders(cs[..i])
  {
  }

  /** `_build_user_prompt`. The last ensures is its definition;
      `PromptShowsChunk` and `PromptUsesFirstFive` state what it means. */
  function BuildUserPrompt(message: string, chunks: seq<ContextChunk>): (r: string)
    ensures chunks == [] ==> r == "User question: " + message
    ensures chunks != [] ==>
      StartsWith(r, "Context from knowledge base:\n")
      && EndsWith(r, "\n\nUser question: " + message + "\n\n" + INSTRUCTION)
    ensures chunks != [] ==>
      r == "Context from knowledge base:\n" + Join(Renders(Take(chunks, CONTEXT_LIMIT)), "\n\n")
           + "\n\nUser question: " + message + "\n\n" + INSTRUCTION
  {
    if chunks == [] then "User question: " + message
    else
      var head := "Context from knowledge base:\n";
      var block := Join(Renders(Take(chunks, CONTEXT_LIMIT)), "\n\n");
      var tail := "\n\nUser question: " + message + "\n\n" + INSTRUCTION;
      var r := head + block + tail;
      assert r[..|head|] == head;
      assert r[|r| - |tail|..] == tail;
      r
  }

  /** The prompt shows the first five chunks only: whatever follows them
      does not change it. */
  lemma PromptUsesFirstFive(message: string, chunks: seq<ContextChunk>, more: seq<ContextChunk>)
    requires |chunks| >= CONTEXT_LIMIT
    ensures BuildUserPrompt(message, chunks + more) == BuildUserPrompt(message, chunks)
  {
    assert Take(chunks + more, CONTEXT_LIMIT) == Take(chunks, CONTEXT_LIMIT);
  }

  /** Each of the first five chunks is shown in the prompt, in order: after
      the context header and the blocks of the chunks before it, separated by
      a blank line. */
  lemma {:induction false} PromptShowsChunk(message: string, chunks: seq<ContextChunk>, i: nat)
    requires i < Min(CONTEXT_LIMIT, |chunks|)
    ensures StartsWith(BuildUserPrompt(message, chunks),
                       "Context from knowledge base:\n" + Join(Renders(chunks[..i]), "\n\n")
                       + (if i == 0 then "" else "\n\n") + RenderChunk(chunks[i]))
  {
    var first := Take(chunks, CONTEXT_LIMIT);
    var shown := Renders(first);
    var sep := "\n\n";
    assert first[..i] == chunks[..i];
    RendersPrefix(first, i);
    JoinPrefix(shown, sep, i);
    var head := "Context from knowledge base:\n";
    var a, b, c := Join(Renders(chunks[..i]), sep), (if i == 0 then "" else sep), RenderChunk(chunks[i]);
    var p := head + a + b + c;
    StartsWithAfter(head, Join(shown, sep), a, b, c);
    var s := head + Join(shown, sep);
    StartsWithExtend(s, "\n\nUser question: ", p);
    s := s + "\n\nUser question: ";
    StartsWithExtend(s, message, p);
    s := s + message;
    StartsWithExtend(s, "\n\n", p);
    s := s + "\n\n";
    StartsWithExtend(s, INSTRUCTION, p);
  }

  /** One citation: the fields with their defaults, the text cut to 200
      characters with "..." always appended. */
  function CitationOf(c: ContextChunk): (r: Citation)
    ensures r.docId == c.docId.GetOr("") && r.chunkId == c.chunkId.GetOr("")
    ensures r.source == c.source.GetOr("Unknown") && r.score == c.score.GetOr(0.0)
    ensures |r.text| == Min(CITATION_CHARS, |c.text.GetOr("")|) + 3
    ensures EndsWith(r.text, "...") && r.text[..|r.text| - 3] <= c.text.GetOr("")
  {
    var t := Take(c.text.GetOr(""), CITATION_CHARS);
    var r := Citation(c.docId.GetOr(""), c.chunkId.GetOr(""), t + "...", c.source.GetOr("Unknown"), c.score.GetOr(0.0));
    assert r.text[..|r.text| - 3] == t;
    assert r.text[|r.text| - 3..] == "...";
    r
  }

  /** `_extract_citations`: one citation per retrieved chunk, in order. */
  method ExtractCitations(chunks: seq<ContextChunk>) returns (r: seq<Citation>)
    ensures |r| == |chunks|
    ensures forall i :: 0 <= i < |chunks| ==> r[i] == CitationOf(chunks[i])
  {
    r := [];
    var i := 0;
    while i < |chunks|
      invariant 0 <= i <= |chunks|
      invariant |r| == i
      invariant forall j :: 0 <= j < i ==> r[j] == CitationOf(chunks[j])
    {
      r := r + [CitationOf(chunks[i])];
      i := i + 1;
    }
  }

  /** `_generate_response`: the generated content, or one of the two fixed
      apologies. */
  function Generate(reply: Reply<CompletionBody>): (r: string)
    ensures reply.Response? && reply.status != 200 ==> r == BUSY_REPLY
    ensures reply.TransportError? ==> r == ERROR_REPLY
    ensures reply.Response? && reply.status == 200 ==>
      r == (if reply.body.CompletionJson? && reply.body.content.Some? then reply.body.content.value else ERROR_REPLY)
  {
    match reply
    case TransportError(_) => ERROR_REPLY
    case Response(status, body) =>
      if status != 200 then BUSY_REPLY
      else if body.CompletionJson? && body.content.Some? then body.content.value
      else ERROR_REPLY
  }

  /** The sampling temperature for a mode. */
  function Temperature(mode: string): real {
    if mode == "quick" then 0.7 else 0.3
  }

  /** `process_message`: retrieve, prompt, generate, cite. `search` and
      `complete` are the two HTTP calls. */
  method ProcessMessage(userId: string, message: string, mode: string,
                        search: SearchRequest -> Reply<SearchBody>,
                        complete: CompletionRequest -> Reply<CompletionBody>)
    returns (r: ChatResult)
    ensures var context := Retrieve(search(SearchRequest(message, userId, SEARCH_TOP_K)));
      r.content == Generate(complete(CompletionRequest("main", SYSTEM_PROMPT, BuildUserPrompt(message, context),
                                                       Temperature(mode), 1000)))
      && |r.citations| == |context|
      && forall i :: 0 <= i < |context| ==> r.citations[i] == CitationOf(context[i])
  {
    var context := Retrieve(search(SearchRequest(message, userId, SEARCH_TOP_K)));
    var userPrompt := BuildUserPrompt(message, context);
    var content := Generate(complete(CompletionRequest("main", SYSTEM_PROMPT, userPrompt, Temperature(mode), 1000)));
    var citations := ExtractCitations(context);
    r := ChatResult(content, citations);
  }
}
