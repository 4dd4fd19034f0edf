// Answer generation (RAGService.generate_response, _build_context and _build_prompt,
// backend/services/rag_service.py): the retrieved chunks become a numbered context, the
// context and the recent history become the chat prompt, and the model's answer or the
// failure becomes the result the chat view stores.

module Prompting {
  import opened Wrappers
  import opened Text
  import opened Chatbots
  import opened Documents
  import opened Database
  import opened Retrieval

  const NoContextSentinel := "No relevant information found in uploaded documents."
  const SourceSeparator := "\n---\n"
  const ContextIntro := "\n\nYou have access to the following information from uploaded documents:\n"
  const Apology := "I'm sorry, I encountered an error processing your request."
  const ChatModel := "gpt-3.5-turbo"
  /** How many chunks `generate_response` retrieves. */
  const ContextTopK: int := 5
  /** How many history entries `_build_prompt` keeps. */
  const HistoryWindowSize: nat := 5
  /** How many characters of a chunk a `chunks_used` preview keeps. */
  const UsedPreviewLength: nat := 200

  /** One entry of the chat prompt: `{"role": ..., "content": ...}`. */
  datatype Turn = Turn(role: string, content: string)

  // ---------------------------------------------------------------------------
  // _build_context

  /** The block for the `i`-th retrieved chunk, counting from 1. */
  function SourceBlock(i: nat, r: Scored): (b: string)
    ensures "[Source " <= b && b[|b| - 1] == '\n'
  {
    "[Source " + NatToString(i) + " - " + r.documentName + "]\n" + r.content + "\n"
  }

  /** The blocks of all retrieved chunks, numbered from 1 in retrieval order. */
  function SourceBlocks(relevant: seq<Scored>): (r: seq<string>)
    ensures |r| == |relevant|
    ensures forall k :: 0 <= k < |r| ==> r[k] == SourceBlock(k + 1, relevant[k])
  {
    if relevant == [] then []
    else SourceBlocks(relevant[..|relevant| - 1]) + [SourceBlock(|relevant|, relevant[|relevant| - 1])]
  }

  /** What `_build_context` returns: the sentinel, or the blocks joined by the separator. */
  function ContextText(relevant: seq<Scored>): string {
    if relevant == [] then NoContextSentinel else Join(SourceBlocks(relevant), SourceSeparator)
  }

  /** `_build_context`: one block per chunk, appended in a loop, then joined. */
  method BuildContext(relevant: seq<Scored>) returns (context: string)
    ensures context == ContextText(relevant)
  {
    if relevant == [] {
      return NoContextSentinel;
    }
    var contextParts: seq<string> := [];
    for i := 0 to |relevant|
      invariant contextParts == SourceBlocks(relevant[..i])
    {
      contextParts := contextParts + [SourceBlock(i + 1, relevant[i])];
      assert relevant[..i + 1][..i] == relevant[..i];
    }
    assert relevant[..|relevant|] == relevant;
    context := Join(contextParts, SourceSeparator);
  }

  /** A single chunk gives exactly its block, with no separator. */
  lemma ContextOfOne(r: Scored)
    ensures ContextText([r]) == SourceBlock(1, r)
  {
    assert SourceBlocks([r]) == [SourceBlock(1, r)];
  }

  /** A further chunk adds a separator and its block, numbered one past the others, at the end. */
  lemma ContextSnoc(relevant: seq<Scored>, r: Scored)
    requires relevant != []
    ensures ContextText(relevant + [r])
         == ContextText(relevant) + SourceSeparator + SourceBlock(|relevant| + 1, r)
  {
    assert (relevant + [r])[..|relevant|] == relevant;
    JoinSnoc(SourceBlocks(relevant), SourceBlock(|relevant| + 1, r), SourceSeparator);
  }

  /** The first chunk's block opens the context. */
  lemma {:induction false} ContextStartsWithFirstSource(relevant: seq<Scored>)
    requires relevant != []
    ensures SourceBlock(1, relevant[0]) <= ContextText(relevant)
    decreases |relevant|
  {
    if |relevant| == 1 {
      ContextOfOne(relevant[0]);
    } else {
      var init := relevant[..|relevant| - 1];
      assert relevant == init + [relevant[|relevant| - 1]];
      ContextStartsWithFirstSource(init);
      ContextSnoc(init, relevant[|relevant| - 1]);
    }
  }

  /** The context is never empty, so the prompt always tells the model what it knows. */
  lemma ContextNeverEmpty(relevant: seq<Scored>)
    ensures ContextText(relevant) != ""
  {
    if relevant != [] {
      ContextStartsWithFirstSource(relevant);
    }
  }

  // ---------------------------------------------------------------------------
  // _build_prompt

  /** The system entry's text: the chatbot's prompt, then the context introduced on its own lines. */
  function SystemText(systemPrompt: string, context: string): (t: string)
    ensures |t| == |systemPrompt| + |ContextIntro| + |context| + 1 && systemPrompt <= t
    ensures t[|systemPrompt|..|systemPrompt| + |ContextIntro|] == ContextIntro
    ensures t[|systemPrompt| + |ContextIntro|..|t| - 1] == context && t[|t| - 1] == '\n'
  {
    systemPrompt + ContextIntro + context + "\n"
  }

  /** The part of the history `_build_prompt` copies: nothing when it is absent or empty, else its last five. */
  function HistoryWindow(history: Option<seq<Turn>>): seq<Turn> {
    if history.None? || history.value == [] then [] else LastN(history.value, HistoryWindowSize)
  }

  /** The prompt `_build_prompt` returns. */
  function Prompt(systemPrompt: string, context: string, userMessage: string, history: Option<seq<Turn>>)
    : seq<Turn>
  {
    [Turn(RoleName(SystemRole), SystemText(systemPrompt, context))]
      + HistoryWindow(history)
      + [Turn(RoleName(UserRole), userMessage)]
  }

  /** `_build_prompt`: the system entry, each recent history entry in a loop, then the user entry. */
  method BuildPrompt(systemPrompt: string, context: string, userMessage: string, history: Option<seq<Turn>>)
    returns (messages: seq<Turn>)
    ensures messages == Prompt(systemPrompt, context, userMessage, history)
  {
    messages := [];
    var systemMessage := SystemText(systemPrompt, context);
    messages := messages + [Turn(RoleName(SystemRole), systemMessage)];
    if history.Some? && history.value != [] {
      var recent := LastN(history.value, HistoryWindowSize);
      for i := 0 to |recent|
        invariant messages == [Turn(RoleName(SystemRole), systemMessage)] + recent[..i]
      {
        messages := messages + [Turn(recent[i].role, recent[i].content)];
        assert recent[..i + 1] == recent[..i] + [recent[i]];
      }
      assert recent[..|recent|] == recent;
    }
    messages := messages + [Turn(RoleName(UserRole), userMessage)];
  }

  /**
   * The prompt has 2 + min(5, |history|) entries: the system entry first, the user message
   * last, and between them the most recent history entries, oldest first, roles kept.
   */
  lemma PromptShape(systemPrompt: string, context: string, userMessage: string, history: seq<Turn>)
    ensures var p := Prompt(systemPrompt, context, userMessage, Some(history));
            && |p| == 2 + (if |history| < HistoryWindowSize then |history| else HistoryWindowSize)
            && p[0] == Turn("system", SystemText(systemPrompt, context))
            && p[|p| - 1] == Turn("user", userMessage)
            && forall k :: 1 <= k < |p| - 1 ==> p[k] == history[|history| - (|p| - 2) + (k - 1)]
  {
    var p := Prompt(systemPrompt, context, userMessage, Some(history));
    var w := HistoryWindow(Some(history));
    assert p == [p[0]] + w + [p[|p| - 1]];
    forall k | 1 <= k < |p| - 1
      ensures p[k] == history[|history| - (|p| - 2) + (k - 1)]
    {
      assert p[k] == w[k - 1];
    }
  }

  /** Without history the prompt is the system entry and the user entry only. */
  lemma PromptWithoutHistory(systemPrompt: string, context: string, userMessage: string)
    ensures Prompt(systemPrompt, context, userMessage, None)
         == Prompt(systemPrompt, context, userMessage, Some([]))
         == [Turn("system", SystemText(systemPrompt, context)), Turn("user", userMessage)]
  {
  }

  // ---------------------------------------------------------------------------
  // generate_response

  /** `chunk['content'][:200] + '...'`: the ellipsis is added even to short content. */
  function UsedPreview(content: string): (p: string)
    ensures |p| == (if |content| < UsedPreviewLength then |content| else UsedPreviewLength) + 3
    ensures p[..|p| - 3] <= content && p[|p| - 3..] == "..."
  {
    Prefix(content, UsedPreviewLength) + "..."
  }

  /** The `chunks_used` list: one entry per retrieved chunk, in retrieval order. */
  function ChunksUsed(relevant: seq<Scored>): (r: seq<ContextEntry>)
    ensures |r| == |relevant|
    ensures forall i :: 0 <= i < |r| ==>
              r[i] == ContextEntry(relevant[i].documentName, relevant[i].similarity, UsedPreview(relevant[i].content))
  {
    seq(|relevant|, i requires 0 <= i < |relevant| =>
      ContextEntry(relevant[i].documentName, relevant[i].similarity, UsedPreview(relevant[i].content)))
  }

  /** What the chat model returns: the first choice's text and the total token count. */
  datatype Completion = Completion(content: string, totalTokens: int)

  /** The dictionary `generate_response` returns, by its `success` flag. */
  datatype Generation =
    | Generated(response: string, tokensUsed: int, chunksUsed: seq<ContextEntry>)
    | GenerationFailed(error: string, response: string)

  /** The chat-completion call: model name, prompt, temperature and token limit, to text or an error. */
  type CompletionService = (string, seq<Turn>, real, int) -> Result<Completion, string>

  /**
   * What `generate_response` returns: retrieve five chunks, build the context and the prompt,
   * and ask the model with the chatbot's settings; any failure becomes the apology.
   */
  function GenerationFor(documents: map<nat, Document>, chunks: seq<Chunk>, chatbotIds: set<nat>, chatbot: Chatbot,
                      userMessage: string, history: Option<seq<Turn>>,
                      embed: string -> Result<Embedding, string>, sqrt: real -> real, complete: CompletionService)
    : (g: Generation)
    ensures g.GenerationFailed? ==> g.response == Apology
  {
    match Retrieval.Retrieval(documents, chunks, chatbotIds, chatbot.id, userMessage, ContextTopK, embed, sqrt)
    case Err(e) => GenerationFailed(e, Apology)
    case Ok(relevant) =>
      var prompt := Prompt(chatbot.systemPrompt, ContextText(relevant), userMessage, history);
      match complete(ChatModel, prompt, chatbot.temperature, chatbot.maxTokens)
      case Err(e) => GenerationFailed(e, Apology)
      case Ok(c) => Generated(c.content, c.totalTokens, ChunksUsed(relevant))
  }

  /** `generate_response`, with the retrieval, the two builders and the model call in sequence. */
  method GenerateResponse(db: Db, chatbot: Chatbot, userMessage: string, history: Option<seq<Turn>>,
                          embed: string -> Result<Embedding, string>, sqrt: real -> real,
                          complete: CompletionService)
    returns (g: Generation)
    ensures g == GenerationFor(db.documents, db.chunks, db.chatbots.Keys, chatbot, userMessage, history,
                            embed, sqrt, complete)
  {
    var relevantChunks := RetrieveRelevantChunks(db, chatbot.id, userMessage, ContextTopK, embed, sqrt);
    if relevantChunks.Err? {
      return GenerationFailed(relevantChunks.error, Apology);
    }
    var context := BuildContext(relevantChunks.value);
    var prompt := BuildPrompt(chatbot.systemPrompt, context, userMessage, history);
    var response := complete(ChatModel, prompt, chatbot.temperature, chatbot.maxTokens);
    if response.Err? {
      return GenerationFailed(response.error, Apology);
    }
    g := Generated(response.value.content, response.value.totalTokens, ChunksUsed(relevantChunks.value));
  }

  /**
   * A successful answer reports at most five chunks, best first, each a chunk of a completed
   * document of this chatbot, with its document's name and its preview.
   */
  lemma GeneratedChunksRanked(documents: map<nat, Document>, chunks: seq<Chunk>, chatbotIds: set<nat>,
                              chatbot: Chatbot, userMessage: string, history: Option<seq<Turn>>,
                              embed: string -> Result<Embedding, string>, sqrt: real -> real,
                              complete: CompletionService)
    requires GenerationFor(documents, chunks, chatbotIds, chatbot, userMessage, history, embed, sqrt, complete).Generated?
    ensures var used := GenerationFor(documents, chunks, chatbotIds, chatbot, userMessage, history,
                                   embed, sqrt, complete).chunksUsed;
            && |used| <= 5
            && (forall i, j :: 0 <= i < j < |used| ==> used[i].similarity >= used[j].similarity)
            && forall e :: e in used ==>
                 exists c :: c in chunks && InScope(documents, chatbot.id, c)
                   && e.document == documents[c.documentId].fileName
                   && e.contentPreview == UsedPreview(c.content)
  {
    RetrievalRanked(documents, chunks, chatbotIds, chatbot.id, userMessage, ContextTopK, embed, sqrt);
    var relevant := Retrieval.Retrieval(documents, chunks, chatbotIds, chatbot.id, userMessage, ContextTopK, embed, sqrt).value;
    var used := ChunksUsed(relevant);
    forall e | e in used
      ensures exists c :: c in chunks && InScope(documents, chatbot.id, c)
                && e.document == documents[c.documentId].fileName
                && e.contentPreview == UsedPreview(c.content)
    {
      var i :| 0 <= i < |used| && used[i] == e;
      assert relevant[i] in relevant;
      var c := relevant[i].chunk;
      assert c in chunks && InScope(documents, chatbot.id, c);
    }
  }
}
