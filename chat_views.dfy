// The chat endpoints (backend/chatbots/chat_views.py): answering a message with retrieval and
// the chat model, reading a conversation's history, and deleting a conversation.

module ChatViews {
  import opened Wrappers
  import opened Http
  import opened Text
  import opened Chatbots
  import opened Documents
  import opened Database
  import opened Prompting

  const EmptyMessageError := "Message cannot be empty"
  const AccessDenied := "Access denied"
  const ConversationDeleted := "Conversation deleted"
  /** The text of the 404 exception the view's own `except Exception` turns into a 500. */
  const NoChatbotMessage := "No Chatbot matches the given query."
  const NoConversationMessage := "No Conversation matches the given query."

  const TitleLength: nat := 50
  /** How many of the conversation's latest messages the endpoint fetches. */
  const RecentFetched: nat := 5

  // ---------------------------------------------------------------------------
  // Pure parts of chat_endpoint

  /** A new conversation's title: the message, or its first 50 characters and an ellipsis. */
  function ConversationTitle(message: string): (t: string)
    ensures |message| <= TitleLength ==> t == message
    ensures |message| > TitleLength ==> |t| == TitleLength + 3 && t == message[..TitleLength] + "..."
  {
    Preview(message, TitleLength)
  }

  /** A title made from a first message always fits the conversation's `title` field. */
  lemma ConversationTitleFits(message: string)
    ensures |ConversationTitle(message)| <= ConversationTitleMaxLength
  {
  }

  /** `if conversation_id:` — an absent id and the id 0 both start a new conversation. */
  predicate ContinuesConversation(conversationId: Option<int>) {
    conversationId.Some? && conversationId.value != 0
  }

  /** One stored message as a history entry: its role name and its content. */
  function TurnOf(m: Message): Turn {
    Turn(RoleName(m.role), m.content)
  }

  /** The history entries the loop appends: every fetched message but the one just saved, in order. */
  function HistoryTurns(recent: seq<Message>, excludedId: nat): (h: seq<Turn>)
    ensures |h| <= |recent|
    ensures (forall m :: m in recent ==> m.id != excludedId) ==> h == Turns(recent)
  {
    if recent == [] then []
    else
      var last := recent[|recent| - 1];
      HistoryTurns(recent[..|recent| - 1], excludedId)
        + (if last.id != excludedId then [TurnOf(last)] else [])
  }

  /** Every message as a history entry, in order. */
  function Turns(ms: seq<Message>): (h: seq<Turn>)
    ensures |h| == |ms| && forall i :: 0 <= i < |ms| ==> h[i] == TurnOf(ms[i])
  {
    if ms == [] then [] else Turns(ms[..|ms| - 1]) + [TurnOf(ms[|ms| - 1])]
  }

  /** The history loop: over the fetched messages, oldest first, skipping the one just saved. */
  method CollectHistory(recent: seq<Message>, userMessageId: nat) returns (history: seq<Turn>)
    ensures history == HistoryTurns(recent, userMessageId)
  {
    history := [];
    for i := 0 to |recent|
      invariant history == HistoryTurns(recent[..i], userMessageId)
    {
      var msg := recent[i];
      if msg.id != userMessageId {
        history := history + [TurnOf(msg)];
      }
      assert recent[..i + 1][..i] == recent[..i];
    }
    assert recent[..|recent|] == recent;
  }

  /**
   * The five latest messages include the one just saved, which the loop drops: the history is
   * the earlier messages' last four at most, oldest first.
   */
  lemma {:induction false} HistoryIsLastFourBefore(prior: seq<Message>, saved: Message)
    requires forall m :: m in prior ==> m.id != saved.id
    ensures HistoryTurns(LastN(prior + [saved], RecentFetched), saved.id) == Turns(LastN(prior, RecentFetched - 1))
    ensures |HistoryTurns(LastN(prior + [saved], RecentFetched), saved.id)| <= 4
  {
    var all := prior + [saved];
    var recent := LastN(all, RecentFetched);
    var earlier := LastN(prior, RecentFetched - 1);
    assert recent == earlier + [saved];
    assert recent[..|recent| - 1] == earlier;
    assert forall m :: m in earlier ==> m in prior;
  }

  // ---------------------------------------------------------------------------
  // chat_endpoint

  datatype ChatReply =
    | ChatError(status: nat, error: string)
    | ChatAnswered(conversationId: nat, userMessage: Message, aiMessage: Message, context: seq<ContextEntry>)

  /** An answered message is 200; an error carries its own status. */
  function ChatStatus(r: ChatReply): (code: nat)
    ensures r.ChatAnswered? ==> code == HttpOk
    ensures r.ChatError? ==> code == r.status
  {
    if r.ChatAnswered? then HttpOk else r.status
  }

  /** The conversation a message goes to, as far as the request decides it. */
  datatype ConversationChoice = Existing(id: nat) | Missing | Fresh

  function ChooseConversation(conversations: map<nat, Conversation>, chatbotId: nat, conversationId: Option<int>)
    : (c: ConversationChoice)
    ensures c.Fresh? <==> !ContinuesConversation(conversationId)
    ensures c.Existing? ==> c.id in conversations && conversations[c.id].chatbotId == chatbotId
                            && conversationId == Some(c.id as int)
  {
    if !ContinuesConversation(conversationId) then Fresh
    else if conversationId.value >= 0 && conversationId.value as nat in conversations
            && conversations[conversationId.value as nat].chatbotId == chatbotId
    then Existing(conversationId.value as nat)
    else Missing
  }

  /** The request gets as far as saving the user message: an active chatbot, a non-blank message, no unknown conversation. */
  predicate Proceeds(chatbots: map<nat, Chatbot>, conversations: map<nat, Conversation>, chatbotId: nat,
                     message: Option<string>, conversationId: Option<int>)
  {
    && chatbotId in chatbots && chatbots[chatbotId].isActive
    && Strip(message.GetOr("")) != ""
    && !ChooseConversation(conversations, chatbotId, conversationId).Missing?
  }

  /**
   * How one exchange ends, given the messages before it, the conversation, the id the user message
   * gets and the generation's outcome: a failure answers 500 with the generation's error and keeps
   * only the user message; a success answers with both messages, the assistant one holding the
   * generated text, the chunks used and the token count, and appends both.
   */
  predicate ConverseOutcome(before: seq<Message>, conversation: nat, userId: nat, text: string, g: Generation,
                            r: ChatReply, after: seq<Message>)
  {
    && (g.GenerationFailed? ==>
          && r == ChatError(HttpServerError, g.error)
          && after == before + [Message(userId, conversation, UserRole, text, None, None)])
    && (g.Generated? ==>
          && r.ChatAnswered? && r.conversationId == conversation && r.context == g.chunksUsed
          && r.userMessage == Message(userId, conversation, UserRole, text, None, None)
          && r.aiMessage == Message(userId + 1, conversation, AssistantRole, g.response, Some(g.chunksUsed), Some(g.tokensUsed))
          && after == before + [r.userMessage, r.aiMessage])
  }

  /**
   * `chat_endpoint`: an inactive or missing chatbot is an error 500 (the 404 raised inside the
   * `try` is caught by its generic handler); an empty message is refused with 400 before anything
   * is written; otherwise the conversation is found or created, the user message saved, the
   * history gathered and the answer generated. A failed generation answers 500 after the user
   * message was saved and writes no assistant message.
   */
  method ChatEndpoint(db: Db, chatbotId: nat, message: Option<string>, conversationId: Option<int>,
                      requester: Option<nat>,
                      embed: string -> Result<Embedding, string>, sqrt: real -> real, complete: CompletionService)
    returns (r: ChatReply)
    requires db.Valid()
    modifies db
    ensures !(chatbotId in old(db.chatbots) && old(db.chatbots[chatbotId]).isActive) ==>
              r == ChatError(HttpServerError, NoChatbotMessage)
              && db.conversations == old(db.conversations) && db.messages == old(db.messages)
    ensures chatbotId in old(db.chatbots) && old(db.chatbots[chatbotId]).isActive
            && Strip(message.GetOr("")) == "" ==>
              r == ChatError(HttpBadRequest, EmptyMessageError)
              && db.conversations == old(db.conversations) && db.messages == old(db.messages)
    ensures chatbotId in old(db.chatbots) && old(db.chatbots[chatbotId]).isActive
            && Strip(message.GetOr("")) != ""
            && ChooseConversation(old(db.conversations), chatbotId, conversationId).Missing? ==>
              r == ChatError(HttpServerError, NoConversationMessage)
              && db.conversations == old(db.conversations) && db.messages == old(db.messages)
    ensures Proceeds(old(db.chatbots), old(db.conversations), chatbotId, message, conversationId) ==>
              var text := Strip(message.GetOr(""));
              var choice := ChooseConversation(old(db.conversations), chatbotId, conversationId);
              var conv := if choice.Existing? then choice.id else old(db.nextId);
              var userId := if choice.Existing? then old(db.nextId) else old(db.nextId) + 1;
              && (choice.Existing? ==> db.conversations == old(db.conversations))
              && (choice.Fresh? ==>
                    db.conversations == old(db.conversations)[conv := Conversation(conv, chatbotId, requester, ConversationTitle(text))])
              && ConverseOutcome(old(db.messages), conv, userId, text,
                                 GenerationFor(old(db.documents), old(db.chunks), old(db.chatbots).Keys, old(db.chatbots[chatbotId]),
                                               text, Some(Turns(LastN(MessagesOf(old(db.messages), conv), RecentFetched - 1))),
                                               embed, sqrt, complete),
                                 r, db.messages)
    ensures r.ChatAnswered? && ContinuesConversation(conversationId) ==> r.conversationId as int == conversationId.value
    ensures r.ChatAnswered? ==>
              && r.userMessage == Message(r.userMessage.id, r.conversationId, UserRole, Strip(message.GetOr("")), None, None)
              && r.aiMessage.conversationId == r.conversationId && r.aiMessage.role == AssistantRole
              && r.aiMessage.contextUsed == Some(r.context)
              && db.messages == old(db.messages) + [r.userMessage, r.aiMessage]
              && r.conversationId in db.conversations
              && db.conversations[r.conversationId].chatbotId == chatbotId
    ensures r.ChatError? ==>
              || db.messages == old(db.messages)
              || (&& r.status == HttpServerError && |db.messages| == |old(db.messages)| + 1
                  && db.messages == old(db.messages) + [db.messages[|old(db.messages)|]]
                  && db.messages[|old(db.messages)|].role == UserRole)
    ensures db.users == old(db.users) && db.chatbots == old(db.chatbots)
    ensures db.documents == old(db.documents) && db.chunks == old(db.chunks) && db.files == old(db.files)
    ensures db.Valid()
    ensures old(db.ChunksConsistent()) ==> db.ChunksConsistent()
  {
    if !(chatbotId in db.chatbots && db.chatbots[chatbotId].isActive) {
      return ChatError(HttpServerError, NoChatbotMessage);
    }
    var userMessage := Strip(message.GetOr(""));
    if userMessage == "" {
      return ChatError(HttpBadRequest, EmptyMessageError);
    }
    var choice := ChooseConversation(db.conversations, chatbotId, conversationId);
    if choice.Missing? {
      return ChatError(HttpServerError, NoConversationMessage);
    }
    var g, conversation, userId;
    r, g, conversation, userId := Respond(db, chatbotId, userMessage, choice, requester, embed, sqrt, complete);
  }

  /**
   * The part of `chat_endpoint` after the checks: open the conversation (a new one titled after
   * the message), save the user message, generate, and save the answer.
   */
  method Respond(db: Db, chatbotId: nat, text: string, choice: ConversationChoice, requester: Option<nat>,
                 embed: string -> Result<Embedding, string>, sqrt: real -> real, complete: CompletionService)
    returns (r: ChatReply, g: Generation, conversation: nat, userId: nat)
    requires db.Valid() && chatbotId in db.chatbots && !choice.Missing?
    requires choice.Existing? ==> choice.id in db.conversations && db.conversations[choice.id].chatbotId == chatbotId
    modifies db
    ensures var conv := if choice.Existing? then choice.id else old(db.nextId);
            && (choice.Existing? ==> db.conversations == old(db.conversations))
            && (choice.Fresh? ==>
                  db.conversations == old(db.conversations)[conv := Conversation(conv, chatbotId, requester, ConversationTitle(text))])
    ensures choice.Existing? ==>
              g == GenerationFor(old(db.documents), old(db.chunks), old(db.chatbots).Keys, old(db.chatbots[chatbotId]),
                                 text, Some(Turns(LastN(MessagesOf(old(db.messages), choice.id), RecentFetched - 1))),
                                 embed, sqrt, complete)
    ensures choice.Fresh? ==>
              g == GenerationFor(old(db.documents), old(db.chunks), old(db.chatbots).Keys, old(db.chatbots[chatbotId]),
                                 text, Some(Turns(LastN(MessagesOf(old(db.messages), old(db.nextId)), RecentFetched - 1))),
                                 embed, sqrt, complete)
    ensures conversation == if choice.Existing? then choice.id else old(db.nextId)
    ensures userId == if choice.Existing? then old(db.nextId) else old(db.nextId) + 1
    ensures ConverseOutcome(old(db.messages), conversation, userId, text, g, r, db.messages)
    ensures r.ChatAnswered? ==> r.conversationId in db.conversations && db.conversations[r.conversationId].chatbotId == chatbotId
    ensures db.users == old(db.users) && db.chatbots == old(db.chatbots)
    ensures db.documents == old(db.documents) && db.chunks == old(db.chunks) && db.files == old(db.files)
    ensures db.Valid()
    ensures old(db.ChunksConsistent()) ==> db.ChunksConsistent()
  {
    ghost var before := db.messages;
    conversation := OpenConversation(db, chatbotId, choice, requester, ConversationTitle(text));
    userId := db.nextId;
    r, g := Converse(db, db.chatbots[chatbotId], conversation, text, embed, sqrt, complete, before, userId);
  }

  /** The conversation the message goes to: the one named, or a new one titled after the message. */
  method OpenConversation(db: Db, chatbotId: nat, choice: ConversationChoice, requester: Option<nat>, title: string)
    returns (conversation: nat)
    requires db.Valid() && chatbotId in db.chatbots && !choice.Missing?
    requires choice.Existing? ==> choice.id in db.conversations && db.conversations[choice.id].chatbotId == chatbotId
    modifies db
    ensures conversation in db.conversations && db.conversations[conversation].chatbotId == chatbotId
    ensures choice.Existing? ==>
              conversation == choice.id && db.conversations == old(db.conversations) && db.nextId == old(db.nextId)
    ensures choice.Fresh? ==>
              && conversation == old(db.nextId) && db.nextId == old(db.nextId) + 1
              && db.conversations == old(db.conversations)[conversation := Conversation(conversation, chatbotId, requester, title)]
    ensures db.users == old(db.users) && db.chatbots == old(db.chatbots) && db.messages == old(db.messages)
    ensures db.documents == old(db.documents) && db.chunks == old(db.chunks) && db.files == old(db.files)
    ensures db.Valid()
    ensures old(db.ChunksConsistent()) ==> db.ChunksConsistent()
  {
    if choice.Existing? {
      conversation := choice.id;
    } else {
      conversation := db.NewId();
      db.SaveConversation(Conversation(conversation, chatbotId, requester, title));
    }
  }

  /**
   * Save the user message, gather the history, generate, and on success save the assistant
   * message with the chunks it used and its token count.
   */
  method Converse(db: Db, chatbot: Chatbot, conversation: nat, userMessage: string,
                  embed: string -> Result<Embedding, string>, sqrt: real -> real, complete: CompletionService,
                  ghost before: seq<Message>, ghost userId: nat)
    returns (r: ChatReply, g: Generation)
    requires db.Valid() && conversation in db.conversations
    requires db.messages == before && db.nextId == userId
    modifies db
    ensures g == GenerationFor(old(db.documents), old(db.chunks), old(db.chatbots).Keys, chatbot, userMessage,
                               Some(Turns(LastN(MessagesOf(before, conversation), RecentFetched - 1))),
                               embed, sqrt, complete)
    ensures ConverseOutcome(before, conversation, userId, userMessage, g, r, db.messages)
    ensures db.users == old(db.users) && db.chatbots == old(db.chatbots) && db.conversations == old(db.conversations)
    ensures db.documents == old(db.documents) && db.chunks == old(db.chunks) && db.files == old(db.files)
    ensures db.Valid()
    ensures old(db.ChunksConsistent()) ==> db.ChunksConsistent()
  {
    var userMsg, history := PostUserMessage(db, conversation, userMessage);
    r, g := Answer(db, chatbot, userMsg, history, embed, sqrt, complete);
    if g.Generated? {
      AppendTwo(before, userMsg, r.aiMessage);
    }
  }

  lemma AppendTwo<T>(s: seq<T>, x: T, y: T)
    ensures s + [x] + [y] == s + [x, y]
  {
  }

  /** Save the user message, then gather the history from the conversation's five latest messages. */
  method PostUserMessage(db: Db, conversation: nat, userMessage: string) returns (userMsg: Message, history: seq<Turn>)
    requires db.Valid() && conversation in db.conversations
    modifies db
    ensures userMsg == Message(old(db.nextId), conversation, UserRole, userMessage, None, None)
    ensures history == Turns(LastN(MessagesOf(old(db.messages), conversation), RecentFetched - 1))
    ensures db.messages == old(db.messages) + [userMsg] && db.nextId == old(db.nextId) + 1
    ensures db.users == old(db.users) && db.chatbots == old(db.chatbots) && db.conversations == old(db.conversations)
    ensures db.documents == old(db.documents) && db.chunks == old(db.chunks) && db.files == old(db.files)
    ensures db.Valid()
    ensures old(db.ChunksConsistent()) ==> db.ChunksConsistent()
  {
    ghost var before := db.messages;
    ghost var prior := MessagesOf(before, conversation);
    assert forall m :: m in prior ==> m.id < db.nextId by {
      forall m | m in prior ensures m.id < db.nextId {
        assert m in before;
      }
    }
    var userId := db.NewId();
    userMsg := Message(userId, conversation, UserRole, userMessage, None, None);
    db.AddMessage(userMsg);
    MessagesOfSnoc(before, userMsg, conversation);
    HistoryIsLastFourBefore(prior, userMsg);
    var previousMessages := LastN(MessagesOf(db.messages, conversation), RecentFetched);
    history := CollectHistory(previousMessages, userMsg.id);
  }

  /** Generate the answer; on success save the assistant message with the chunks used and the token count. */
  method Answer(db: Db, chatbot: Chatbot, userMsg: Message, history: seq<Turn>,
                embed: string -> Result<Embedding, string>, sqrt: real -> real, complete: CompletionService)
    returns (r: ChatReply, g: Generation)
    requires db.Valid() && userMsg.conversationId in db.conversations
    modifies db
    ensures g == GenerationFor(old(db.documents), old(db.chunks), old(db.chatbots).Keys, chatbot, userMsg.content,
                               Some(history), embed, sqrt, complete)
    ensures g.GenerationFailed? ==> r == ChatError(HttpServerError, g.error) && db.messages == old(db.messages)
    ensures g.Generated? ==>
              && r.ChatAnswered? && r.conversationId == userMsg.conversationId && r.context == g.chunksUsed
              && r.userMessage == userMsg
              && r.aiMessage == Message(old(db.nextId), userMsg.conversationId, AssistantRole, g.response,
                                        Some(g.chunksUsed), Some(g.tokensUsed))
              && db.messages == old(db.messages) + [r.aiMessage]
    ensures db.users == old(db.users) && db.chatbots == old(db.chatbots) && db.conversations == old(db.conversations)
    ensures db.documents == old(db.documents) && db.chunks == old(db.chunks) && db.files == old(db.files)
    ensures db.Valid()
    ensures old(db.ChunksConsistent()) ==> db.ChunksConsistent()
  {
    g := GenerateResponse(db, chatbot, userMsg.content, Some(history), embed, sqrt, complete);
    if g.GenerationFailed? {
      return ChatError(HttpServerError, g.error), g;
    }
    var aiId := db.NewId();
    var aiMsg := Message(aiId, userMsg.conversationId, AssistantRole, g.response,
                         Some(g.chunksUsed), Some(g.tokensUsed));
    db.AddMessage(aiMsg);
    r := ChatAnswered(userMsg.conversationId, userMsg, aiMsg, g.chunksUsed);
  }

  // ---------------------------------------------------------------------------
  // conversation_history and delete_conversation

  /** Reading is allowed to the chatbot's owner and to the user the conversation belongs to. */
  predicate CanRead(chatbotOwner: nat, conversation: Conversation, requester: nat) {
    requester == chatbotOwner || conversation.user == Some(requester)
  }

  /** Deleting is allowed to the chatbot's owner only. */
  predicate CanDelete(chatbotOwner: nat, requester: nat) {
    requester == chatbotOwner
  }

  /** An anonymous conversation can be read by the owner alone, and whoever may delete may read. */
  lemma AccessRules(chatbotOwner: nat, conversation: Conversation, requester: nat)
    ensures conversation.user.None? ==> (CanRead(chatbotOwner, conversation, requester) <==> requester == chatbotOwner)
    ensures CanDelete(chatbotOwner, requester) ==> CanRead(chatbotOwner, conversation, requester)
    ensures conversation.user == Some(requester) && requester != chatbotOwner
            ==> CanRead(chatbotOwner, conversation, requester) && !CanDelete(chatbotOwner, requester)
  {
  }

  datatype HistoryReply =
    | HistoryError(status: nat, error: string)
    | History(conversationId: nat, title: string, messages: seq<Message>)

  /** A history is 200; an error carries its own status. */
  function HistoryStatus(r: HistoryReply): (code: nat)
    ensures r.History? ==> code == HttpOk
    ensures r.HistoryError? ==> code == r.status
  {
    if r.History? then HttpOk else r.status
  }

  /**
   * `conversation_history`: a missing conversation is an error 500 (the 404 is caught), a requester
   * who may not read it gets 403, otherwise its messages in creation order.
   */
  method ConversationHistory(db: Db, requester: nat, conversationId: nat) returns (r: HistoryReply)
    requires db.Valid()
    ensures conversationId !in db.conversations ==> r == HistoryError(HttpServerError, NoConversationMessage)
    ensures conversationId in db.conversations ==>
              var c := db.conversations[conversationId];
              && (!CanRead(db.chatbots[c.chatbotId].owner, c, requester) ==> r == HistoryError(HttpForbidden, AccessDenied))
              && (CanRead(db.chatbots[c.chatbotId].owner, c, requester) ==>
                    r == History(conversationId, c.title, MessagesOf(db.messages, conversationId)))
  {
    if conversationId !in db.conversations {
      return HistoryError(HttpServerError, NoConversationMessage);
    }
    var conversation := db.conversations[conversationId];
    if !CanRead(db.chatbots[conversation.chatbotId].owner, conversation, requester) {
      return HistoryError(HttpForbidden, AccessDenied);
    }
    r := History(conversationId, conversation.title, MessagesOf(db.messages, conversationId));
  }

  /**
   * `delete_conversation`: a missing conversation is an error 500, anyone but the chatbot's owner
   * gets 403, and the owner's request removes the conversation and its messages.
   */
  method DeleteConversation(db: Db, requester: nat, conversationId: nat) returns (r: Result<string, (nat, string)>)
    requires db.Valid()
    modifies db
    ensures conversationId !in old(db.conversations) ==>
              r == Err((HttpServerError, NoConversationMessage))
              && db.conversations == old(db.conversations) && db.messages == old(db.messages)
    ensures conversationId in old(db.conversations) ==>
              var c := old(db.conversations[conversationId]);
              && (!CanDelete(old(db.chatbots[c.chatbotId]).owner, requester) ==>
                    r == Err((HttpForbidden, AccessDenied))
                    && db.conversations == old(db.conversations) && db.messages == old(db.messages))
              && (CanDelete(old(db.chatbots[c.chatbotId]).owner, requester) ==>
                    r == Ok(ConversationDeleted)
                    && db.conversations == old(db.conversations) - {conversationId}
                    && db.messages == MessagesOutside(old(db.messages), conversationId))
    ensures db.users == old(db.users) && db.chatbots == old(db.chatbots)
    ensures db.documents == old(db.documents) && db.chunks == old(db.chunks) && db.files == old(db.files)
    ensures db.nextId == old(db.nextId)
    ensures db.Valid()
    ensures old(db.ChunksConsistent()) ==> db.ChunksConsistent()
  {
    if conversationId !in db.conversations {
      return Err((HttpServerError, NoConversationMessage));
    }
    var conversation := db.conversations[conversationId];
    if !CanDelete(db.chatbots[conversation.chatbotId].owner, requester) {
      return Err((HttpForbidden, AccessDenied));
    }
    db.DeleteConversation(conversationId);
    r := Ok(ConversationDeleted);
  }

  /** A deletion is answered 204 with its message; an error carries its own status. */
  function DeleteStatus(r: Result<string, (nat, string)>): (code: nat)
    ensures r.Ok? ==> code == HttpNoContent
    ensures r.Err? ==> code == r.error.0
  {
    if r.Ok? then HttpNoContent else r.error.0
  }

  /** Deleting a conversation keeps every other conversation's messages, in order. */
  lemma {:induction false} DeletionKeepsOtherConversations(messages: seq<Message>, deleted: nat, other: nat)
    requires other != deleted
    ensures MessagesOf(MessagesOutside(messages, deleted), other) == MessagesOf(messages, other)
    ensures MessagesOf(MessagesOutside(messages, deleted), deleted) == []
    decreases |messages|
  {
    if messages != [] {
      var init := messages[..|messages| - 1];
      var last := messages[|messages| - 1];
      DeletionKeepsOtherConversations(init, deleted, other);
      var tail := if last.conversationId != deleted then [last] else [];
      MessagesOfAppend(MessagesOutside(init, deleted), tail, other);
      MessagesOfAppend(MessagesOutside(init, deleted), tail, deleted);
    }
  }
}
