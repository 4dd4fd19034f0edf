// The application's tables, as the Django ORM keeps them, and the queries the views run.

module Database {
  import opened Wrappers
  import opened Accounts
  import opened Chatbots
  import opened Documents

  /**
   * Every table of the application. Rows keyed by id are maps; the chunk and message tables
   * are sequences in insertion order; `files` holds the storage names present on disk.
   * Ids of all tables come from the one counter `nextId`.
   */
  class Db {
    var users: map<nat, User>
    var chatbots: map<nat, Chatbot>
    var documents: map<nat, Document>
    var chunks: seq<Chunk>
    var conversations: map<nat, Conversation>
    var messages: seq<Message>
    var files: set<string>
    var nextId: nat

    /** Keys are the rows' ids, ids are below the counter, and foreign keys point at rows. */
    ghost predicate Valid()
      reads this
    {
      && (forall k :: k in users ==> users[k].id == k && k < nextId)
      && (forall k :: k in chatbots ==> chatbots[k].id == k && k < nextId)
      && DocumentsLinked(documents, chatbots, nextId)
      && ChunksLinked(chunks, documents)
      && (forall k :: k in conversations ==>
            conversations[k].id == k && k < nextId && conversations[k].chatbotId in chatbots)
      && (forall m :: m in messages ==> m.id < nextId && m.conversationId in conversations)
    }

    /** Every document's chunk rows agree with its row. */
    ghost predicate ChunksConsistent()
      reads this
    {
      forall k :: k in documents ==> ChunksAgree(documents[k], ChunksOf(chunks, k))
    }

    /** Every document but `id` has chunk rows agreeing with its row. */
    ghost predicate ChunksConsistentExcept(id: nat)
      reads this
    {
      forall k :: k in documents && k != id ==> ChunksAgree(documents[k], ChunksOf(chunks, k))
    }

    constructor ()
      ensures users == map[] && chatbots == map[] && documents == map[] && chunks == []
      ensures conversations == map[] && messages == [] && files == {} && nextId == 0
      ensures Valid() && ChunksConsistent()
    {
      users := map[];
      chatbots := map[];
      documents := map[];
      chunks := [];
      conversations := map[];
      messages := [];
      files := {};
      nextId := 0;
    }

    /** The next free id; no table changes. */
    method NewId() returns (id: nat)
      modifies this
      ensures id == old(nextId) && nextId == id + 1
      ensures users == old(users) && chatbots == old(chatbots) && documents == old(documents)
      ensures chunks == old(chunks) && conversations == old(conversations)
      ensures messages == old(messages) && files == old(files)
      ensures old(Valid()) ==> Valid()
      ensures old(ChunksConsistent()) ==> ChunksConsistent()
    {
      id := nextId;
      nextId := nextId + 1;
    }

    /** `Document.objects.create(...)`: the row is written and its file committed to storage. */
    method CreateDocument(row: Document)
      requires Valid() && row.id == nextId - 1 && row.id !in documents && row.chatbotId in chatbots
      modifies this
      ensures documents == old(documents)[row.id := row] && files == old(files) + {row.file.name}
      ensures users == old(users) && chatbots == old(chatbots) && chunks == old(chunks)
      ensures conversations == old(conversations) && messages == old(messages) && nextId == old(nextId)
      ensures Valid() && ChunksOf(chunks, row.id) == []
      ensures old(ChunksConsistent()) ==> ChunksConsistentExcept(row.id)
    {
      ChunksOfNone(chunks, row.id);
      documents := documents[row.id := row];
      files := files + {row.file.name};
    }

    /** `DocumentChunk.objects.filter(document=...).delete()`: only that document's chunk rows go. */
    method DeleteChunks(documentId: nat)
      requires Valid()
      modifies this
      ensures chunks == WithoutDocument(old(chunks), documentId)
      ensures users == old(users) && chatbots == old(chatbots) && documents == old(documents)
      ensures conversations == old(conversations) && messages == old(messages)
      ensures files == old(files) && nextId == old(nextId)
      ensures Valid() && ChunksOf(chunks, documentId) == []
      ensures forall k :: k != documentId ==> ChunksOf(chunks, k) == ChunksOf(old(chunks), k)
      ensures old(ChunksConsistent()) ==> ChunksConsistentExcept(documentId)
    {
      ghost var before := chunks;
      chunks := WithoutDocument(chunks, documentId);
      forall k | true
        ensures ChunksOf(chunks, k) == if k == documentId then [] else ChunksOf(before, k)
      {
        ChunksOfWithout(before, documentId, k);
      }
    }

    /** Deleting a document row; its chunk rows cascade with it. */
    method DeleteDocument(documentId: nat)
      requires Valid()
      modifies this
      ensures documents == old(documents) - {documentId}
      ensures chunks == WithoutDocument(old(chunks), documentId)
      ensures users == old(users) && chatbots == old(chatbots)
      ensures conversations == old(conversations) && messages == old(messages)
      ensures files == old(files) && nextId == old(nextId)
      ensures Valid()
      ensures old(ChunksConsistent()) ==> ChunksConsistent()
    {
      ghost var before := chunks;
      documents := documents - {documentId};
      chunks := WithoutDocument(chunks, documentId);
      forall k | k in documents
        ensures ChunksOf(chunks, k) == ChunksOf(before, k)
      {
        ChunksOfWithout(before, documentId, k);
      }
    }

    /** `chatbot.save()`: the row with this id is written, new or not. */
    method SaveChatbot(b: Chatbot)
      requires Valid() && b.id < nextId
      modifies this
      ensures chatbots == old(chatbots)[b.id := b]
      ensures users == old(users) && documents == old(documents) && chunks == old(chunks)
      ensures conversations == old(conversations) && messages == old(messages)
      ensures files == old(files) && nextId == old(nextId)
      ensures Valid()
      ensures old(ChunksConsistent()) ==> ChunksConsistent()
    {
      chatbots := chatbots[b.id := b];
    }

    /** `Conversation.objects.create(...)`. */
    method SaveConversation(c: Conversation)
      requires Valid() && c.id < nextId && c.chatbotId in chatbots
      modifies this
      ensures conversations == old(conversations)[c.id := c]
      ensures users == old(users) && chatbots == old(chatbots) && documents == old(documents)
      ensures chunks == old(chunks) && messages == old(messages)
      ensures files == old(files) && nextId == old(nextId)
      ensures Valid()
      ensures old(ChunksConsistent()) ==> ChunksConsistent()
    {
      conversations := conversations[c.id := c];
    }

    /** `Message.objects.create(...)`: the new row comes last in creation order. */
    method AddMessage(m: Message)
      requires Valid() && m.id < nextId && m.conversationId in conversations
      modifies this
      ensures messages == old(messages) + [m]
      ensures users == old(users) && chatbots == old(chatbots) && documents == old(documents)
      ensures chunks == old(chunks) && conversations == old(conversations)
      ensures files == old(files) && nextId == old(nextId)
      ensures Valid()
      ensures old(ChunksConsistent()) ==> ChunksConsistent()
    {
      messages := messages + [m];
    }

    /** `conversation.delete()`: the row goes, and its messages cascade with it. */
    method DeleteConversation(conversationId: nat)
      requires Valid()
      modifies this
      ensures conversations == old(conversations) - {conversationId}
      ensures messages == MessagesOutside(old(messages), conversationId)
      ensures users == old(users) && chatbots == old(chatbots) && documents == old(documents)
      ensures chunks == old(chunks) && files == old(files) && nextId == old(nextId)
      ensures Valid()
      ensures old(ChunksConsistent()) ==> ChunksConsistent()
    {
      conversations := conversations - {conversationId};
      messages := MessagesOutside(messages, conversationId);
    }

    /** Removing a file from storage; no table changes. */
    method RemoveFile(name: string)
      modifies this
      ensures files == old(files) - {name}
      ensures users == old(users) && chatbots == old(chatbots) && documents == old(documents)
      ensures chunks == old(chunks) && conversations == old(conversations) && messages == old(messages)
      ensures nextId == old(nextId)
      ensures old(Valid()) ==> Valid()
      ensures old(ChunksConsistent()) ==> ChunksConsistent()
    {
      files := files - {name};
    }
  }

  ghost predicate DocumentsLinked(documents: map<nat, Document>, chatbots: map<nat, Chatbot>, nextId: nat) {
    forall k :: k in documents ==> documents[k].id == k && k < nextId && documents[k].chatbotId in chatbots
  }

  ghost predicate ChunksLinked(chunks: seq<Chunk>, documents: map<nat, Document>) {
    forall c :: c in chunks ==> c.documentId in documents
  }

  /** Rewriting a document row in place and adding chunks of that document keeps the links. */
  lemma RowRewriteKeepsLinks(documents: map<nat, Document>, chatbots: map<nat, Chatbot>, nextId: nat,
                             chunks: seq<Chunk>, id: nat, row: Document, added: seq<Chunk>)
    requires DocumentsLinked(documents, chatbots, nextId) && ChunksLinked(chunks, documents)
    requires id in documents && row.id == id && row.chatbotId == documents[id].chatbotId
    requires forall c :: c in added ==> c.documentId == id
    ensures DocumentsLinked(documents[id := row], chatbots, nextId)
    ensures ChunksLinked(chunks + added, documents[id := row])
  {
  }

  // ---------------------------------------------------------------------------
  // Queries over table contents

  /** `Chatbot.objects.filter(owner=user)`, as a set of ids. */
  function OwnedChatbots(chatbots: map<nat, Chatbot>, user: nat): (r: set<nat>)
    ensures forall k :: k in r <==> k in chatbots && chatbots[k].owner == user
  {
    set k | k in chatbots && chatbots[k].owner == user
  }

  /** `Document.objects.filter(chatbot__in=user_chatbots)`: documents of the user's chatbots. */
  function VisibleDocuments(chatbots: map<nat, Chatbot>, documents: map<nat, Document>, user: nat)
    : (r: set<nat>)
    ensures forall k :: k in r <==> k in documents && documents[k].chatbotId in OwnedChatbots(chatbots, user)
  {
    set k | k in documents && documents[k].chatbotId in OwnedChatbots(chatbots, user)
  }

  /** `chatbot.documents.count()`. */
  function DocumentCount(documents: map<nat, Document>, chatbotId: nat): nat {
    |ChatbotDocuments(documents, chatbotId)|
  }

  /** `chatbot.documents`, as a set of ids. */
  function ChatbotDocuments(documents: map<nat, Document>, chatbotId: nat): (r: set<nat>)
    ensures forall k :: k in r <==> k in documents && documents[k].chatbotId == chatbotId
  {
    set k | k in documents && documents[k].chatbotId == chatbotId
  }

  /** A new row adds one to its chatbot's count and leaves every other chatbot's count as it was. */
  lemma DocumentCountInsert(documents: map<nat, Document>, id: nat, row: Document, chatbotId: nat)
    requires id !in documents
    ensures DocumentCount(documents[id := row], chatbotId)
         == DocumentCount(documents, chatbotId) + (if row.chatbotId == chatbotId then 1 else 0)
  {
    var before := ChatbotDocuments(documents, chatbotId);
    var after := ChatbotDocuments(documents[id := row], chatbotId);
    if row.chatbotId == chatbotId {
      assert after == before + {id};
    } else {
      assert after == before;
    }
  }

  /** The messages of one conversation, in creation order. */
  function MessagesOf(messages: seq<Message>, conversationId: nat): (r: seq<Message>)
    ensures |r| <= |messages|
    ensures forall m :: m in r ==> m in messages && m.conversationId == conversationId
  {
    if messages == [] then []
    else
      var last := messages[|messages| - 1];
      MessagesOf(messages[..|messages| - 1], conversationId)
        + (if last.conversationId == conversationId then [last] else [])
  }

  lemma {:induction false} MessagesOfSnoc(messages: seq<Message>, m: Message, conversationId: nat)
    ensures MessagesOf(messages + [m], conversationId)
         == MessagesOf(messages, conversationId) + (if m.conversationId == conversationId then [m] else [])
  {
    assert (messages + [m])[..|messages|] == messages;
  }

  lemma {:induction false} MessagesOfAppend(a: seq<Message>, b: seq<Message>, conversationId: nat)
    ensures MessagesOf(a + b, conversationId) == MessagesOf(a, conversationId) + MessagesOf(b, conversationId)
    decreases |b|
  {
    if b == [] {
      assert a + b == a;
    } else {
      assert (a + b)[..|a + b| - 1] == a + b[..|b| - 1];
      MessagesOfAppend(a, b[..|b| - 1], conversationId);
    }
  }

  /** The messages that do not belong to the conversation (what the cascade of its deletion keeps). */
  function MessagesOutside(messages: seq<Message>, conversationId: nat): (r: seq<Message>)
    ensures forall m :: m in r <==> m in messages && m.conversationId != conversationId
  {
    if messages == [] then []
    else
      var last := messages[|messages| - 1];
      var rest := MessagesOutside(messages[..|messages| - 1], conversationId);
      assert forall m :: m in messages <==> m in messages[..|messages| - 1] || m == last;
      rest + (if last.conversationId != conversationId then [last] else [])
  }
}
