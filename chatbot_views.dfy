// The chatbot and conversation endpoints (ChatbotViewSet and ConversationViewSet,
// backend/chatbots/views.py): which serializer serves an action, whose rows a request sees,
// the creation quota, and the active/inactive switch.

module ChatbotViews {
  import opened Wrappers
  import opened Http
  import opened Text
  import opened Accounts
  import opened Chatbots
  import opened Database

  /** `get_serializer_class`: the create serializer for `create`, the full one for every other action. */
  datatype SerializerClass = ChatbotCreateSerializer | ChatbotSerializer

  function SerializerFor(action: string): (c: SerializerClass)
    ensures c == ChatbotCreateSerializer <==> action == "create"
  {
    if action == "create" then ChatbotCreateSerializer else ChatbotSerializer
  }

  /** `ConversationViewSet.get_queryset`: the conversations of the requester's chatbots. */
  function VisibleConversations(chatbots: map<nat, Chatbot>, conversations: map<nat, Conversation>, user: nat)
    : (r: set<nat>)
    ensures forall k :: k in r <==>
              k in conversations && conversations[k].chatbotId in chatbots
              && chatbots[conversations[k].chatbotId].owner == user
  {
    set k | k in conversations && conversations[k].chatbotId in OwnedChatbots(chatbots, user)
  }

  // ---------------------------------------------------------------------------
  // create

  function ChatbotLimitMessage(maxChatbots: int): string {
    "Chatbot limit reached. Maximum " + IntToString(maxChatbots) + " chatbots allowed."
  }

  /** `user.chatbot_count` read from the table: the number of chatbots the user owns. */
  function OwnedCount(chatbots: map<nat, Chatbot>, user: nat): nat {
    ChatbotCount(Some(|OwnedChatbots(chatbots, user)|))
  }

  datatype CreateResponse =
    | CreateForbidden(error: string)
    | CreateRejected(errors: seq<string>)
    | ChatbotCreated(chatbot: Chatbot)

  function CreateStatus(r: CreateResponse): (code: nat)
    ensures code == HttpCreated <==> r.ChatbotCreated?
    ensures code == HttpForbidden <==> r.CreateForbidden?
  {
    match r
    case CreateForbidden(_) => HttpForbidden
    case CreateRejected(_) => HttpBadRequest
    case ChatbotCreated(_) => HttpCreated
  }

  /**
   * `create`: refuse with 403 when the quota is used up, before looking at the request; otherwise
   * check the fields as `ChatbotCreateSerializer` does (400 with every field error) and save a row
   * owned by the requester.
   */
  method CreateChatbot(db: Db, requester: nat, input: ChatbotInput) returns (r: CreateResponse)
    requires requester in db.users && db.Valid()
    modifies db
    ensures var user := old(db.users[requester]);
            !CanCreateChatbot(user, OwnedCount(old(db.chatbots), requester)) ==>
              && r == CreateForbidden(ChatbotLimitMessage(user.maxChatbots))
              && db.chatbots == old(db.chatbots) && db.nextId == old(db.nextId)
    ensures var user := old(db.users[requester]);
            CanCreateChatbot(user, OwnedCount(old(db.chatbots), requester)) ==>
              match ValidateChatbotInput(input)
              case Err(errors) => r == CreateRejected(errors) && db.chatbots == old(db.chatbots) && db.nextId == old(db.nextId)
              case Ok(valid) =>
                var b := NewChatbot(old(db.nextId), requester, valid);
                && r == ChatbotCreated(b)
                && db.chatbots == old(db.chatbots)[b.id := b]
                && db.nextId == old(db.nextId) + 1
    ensures db.users == old(db.users) && db.documents == old(db.documents) && db.chunks == old(db.chunks)
    ensures db.conversations == old(db.conversations) && db.messages == old(db.messages)
    ensures db.files == old(db.files)
    ensures db.Valid()
    ensures old(db.ChunksConsistent()) ==> db.ChunksConsistent()
    ensures r.ChatbotCreated? ==> OwnedCount(db.chatbots, requester) <= db.users[requester].maxChatbots
  {
    var user := db.users[requester];
    if !CanCreateChatbot(user, OwnedCount(db.chatbots, requester)) {
      return CreateForbidden(ChatbotLimitMessage(user.maxChatbots));
    }
    var valid := ValidateChatbotInput(input);
    if valid.Err? {
      return CreateRejected(valid.error);
    }
    ghost var before := db.chatbots;
    var id := db.NewId();
    var chatbot := NewChatbot(id, requester, valid.value);
    db.SaveChatbot(chatbot);
    OwnedInsert(before, chatbot);
    r := ChatbotCreated(chatbot);
  }

  /** A fresh row owned by the user adds exactly one to what the user owns. */
  lemma OwnedInsert(chatbots: map<nat, Chatbot>, b: Chatbot)
    requires b.id !in chatbots
    ensures OwnedChatbots(chatbots[b.id := b], b.owner) == OwnedChatbots(chatbots, b.owner) + {b.id}
    ensures |OwnedChatbots(chatbots[b.id := b], b.owner)| == |OwnedChatbots(chatbots, b.owner)| + 1
  {
    assert OwnedChatbots(chatbots[b.id := b], b.owner) == OwnedChatbots(chatbots, b.owner) + {b.id};
  }

  /** With the default quota of three the fourth chatbot is refused and the third is not. */
  lemma DefaultQuotaRefusesFourth(u: User)
    requires u.maxChatbots == DefaultMaxChatbots
    ensures CanCreateChatbot(u, 2) && !CanCreateChatbot(u, 3)
    ensures ChatbotLimitMessage(u.maxChatbots) == "Chatbot limit reached. Maximum 3 chatbots allowed."
  {
  }

  // ---------------------------------------------------------------------------
  // toggle_active

  /** The row after the flip: only `is_active` changes, to its negation. */
  function Toggled(b: Chatbot): (r: Chatbot)
    ensures r.isActive == !b.isActive
    ensures r.(isActive := b.isActive) == b
  {
    b.(isActive := !b.isActive)
  }

  /** Toggling twice gives back the row as it was. */
  lemma ToggleTwice(b: Chatbot)
    ensures Toggled(Toggled(b)) == b
  {
  }

  function ToggleMessage(isActive: bool): (m: string)
    ensures m == "Chatbot activated" <==> isActive
    ensures m == "Chatbot deactivated" <==> !isActive
  {
    "Chatbot " + (if isActive then "activated" else "deactivated")
  }

  datatype ToggleReply = ToggleReply(message: string, isActive: bool)

  /** `toggle_active`: 404 (`None`) unless the requester owns the chatbot; else flip, save and report. */
  method ToggleActive(db: Db, requester: nat, chatbotId: nat) returns (r: Option<ToggleReply>)
    requires db.Valid()
    modifies db
    ensures chatbotId !in OwnedChatbots(old(db.chatbots), requester) ==>
              r.None? && db.chatbots == old(db.chatbots)
    ensures chatbotId in OwnedChatbots(old(db.chatbots), requester) ==>
              var b := Toggled(old(db.chatbots[chatbotId]));
              && db.chatbots == old(db.chatbots)[chatbotId := b]
              && r == Some(ToggleReply(ToggleMessage(b.isActive), b.isActive))
    ensures db.users == old(db.users) && db.documents == old(db.documents) && db.chunks == old(db.chunks)
    ensures db.conversations == old(db.conversations) && db.messages == old(db.messages)
    ensures db.files == old(db.files) && db.nextId == old(db.nextId)
    ensures db.Valid()
    ensures old(db.ChunksConsistent()) ==> db.ChunksConsistent()
  {
    if chatbotId !in OwnedChatbots(db.chatbots, requester) {
      return None;
    }
    var chatbot := db.chatbots[chatbotId];
    chatbot := chatbot.(isActive := !chatbot.isActive);
    db.SaveChatbot(chatbot);
    r := Some(ToggleReply(ToggleMessage(chatbot.isActive), chatbot.isActive));
  }
}
