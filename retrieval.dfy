// Retrieval: RAGService.cosine_similarity and RAGService.retrieve_relevant_chunks
// (backend/services/rag_service.py).

module Retrieval {
  import opened Wrappers
  import opened Text
  import opened Documents
  import opened Database

  // ---------------------------------------------------------------------------
  // cosine_similarity

  /** `sum(a * b for a, b in zip(u, v))`: `zip` stops at the shorter vector. */
  function Dot(u: seq<real>, v: seq<real>): real {
    if u == [] || v == [] then 0.0 else u[0] * v[0] + Dot(u[1..], v[1..])
  }

  lemma {:induction false} DotSymmetric(u: seq<real>, v: seq<real>)
    ensures Dot(u, v) == Dot(v, u)
    decreases |u|
  {
    if u != [] && v != [] {
      DotSymmetric(u[1..], v[1..]);
    }
  }

  /** Only the common length counts: extra components of the longer vector are ignored. */
  lemma {:induction false} DotTruncates(u: seq<real>, v: seq<real>)
    ensures |u| <= |v| ==> Dot(u, v) == Dot(u, v[..|u|])
    decreases |u|
  {
    if u != [] && |u| <= |v| {
      assert v[..|u|][1..] == v[1..][..|u| - 1];
      DotTruncates(u[1..], v[1..]);
    }
  }

  lemma {:induction false} DotZero(u: seq<real>, v: seq<real>)
    requires forall i :: 0 <= i < |u| ==> u[i] == 0.0
    ensures Dot(u, v) == 0.0
    decreases |u|
  {
    if u != [] && v != [] {
      DotZero(u[1..], v[1..]);
    }
  }

  /**
   * `cosine_similarity(u, v)` with `math.sqrt` as the parameter `sqrt`: 0.0 when either
   * magnitude is zero, the dot product over the product of the magnitudes otherwise.
   */
  function Cosine(u: seq<real>, v: seq<real>, sqrt: real -> real): (r: real)
    ensures sqrt(Dot(u, u)) == 0.0 || sqrt(Dot(v, v)) == 0.0 ==> r == 0.0
  {
    var m1 := sqrt(Dot(u, u));
    var m2 := sqrt(Dot(v, v));
    if m1 == 0.0 || m2 == 0.0 then 0.0 else Dot(u, v) / (m1 * m2)
  }

  lemma CosineSymmetric(u: seq<real>, v: seq<real>, sqrt: real -> real)
    ensures Cosine(u, v, sqrt) == Cosine(v, u, sqrt)
  {
    DotSymmetric(u, v);
  }

  /** A zero query (or chunk) vector scores 0.0 against everything. */
  lemma CosineZeroVector(u: seq<real>, v: seq<real>, sqrt: real -> real)
    requires forall i :: 0 <= i < |u| ==> u[i] == 0.0
    requires sqrt(0.0) == 0.0
    ensures Cosine(u, v, sqrt) == 0.0
  {
    DotZero(u, u);
  }

  // ---------------------------------------------------------------------------
  // The scored entries

  /** One entry of `chunk_scores`. */
  datatype Scored = Scored(chunk: Chunk, similarity: real, content: string, documentName: string, metadata: ChunkMetadata)

  /** `document__chatbot=chatbot, document__status='completed'`. */
  predicate InScope(documents: map<nat, Document>, chatbotId: nat, c: Chunk) {
    c.documentId in documents && documents[c.documentId].chatbotId == chatbotId
    && documents[c.documentId].status == Completed
  }

  /** The chunk queryset of one chatbot, in table order. */
  function ScopeChunks(documents: map<nat, Document>, chunks: seq<Chunk>, chatbotId: nat): (r: seq<Chunk>)
    ensures forall c :: c in r <==> c in chunks && InScope(documents, chatbotId, c)
  {
    if chunks == [] then []
    else
      var last := chunks[|chunks| - 1];
      assert forall c :: c in chunks <==> c in chunks[..|chunks| - 1] || c == last;
      ScopeChunks(documents, chunks[..|chunks| - 1], chatbotId)
        + (if InScope(documents, chatbotId, last) then [last] else [])
  }

  function ScoreChunk(documents: map<nat, Document>, c: Chunk, query: Embedding, sqrt: real -> real): Scored
    requires c.documentId in documents && HasEmbedding(c)
  {
    Scored(c, Cosine(query, c.embedding.value, sqrt), c.content, documents[c.documentId].fileName, c.metadata)
  }

  /** The entries the loop of `retrieve_relevant_chunks` builds: one per chunk with an embedding, in order. */
  function Scores(documents: map<nat, Document>, scope: seq<Chunk>, query: Embedding, sqrt: real -> real)
    : (r: seq<Scored>)
    requires forall c :: c in scope ==> c.documentId in documents
    ensures |r| <= |scope|
    ensures forall x :: x in r ==>
              (x.chunk in scope && HasEmbedding(x.chunk) && x == ScoreChunk(documents, x.chunk, query, sqrt))
    ensures forall c :: c in scope && HasEmbedding(c) ==> ScoreChunk(documents, c, query, sqrt) in r
  {
    if scope == [] then []
    else
      var last := scope[|scope| - 1];
      var init := scope[..|scope| - 1];
      assert forall c :: c in init ==> c in scope;
      assert forall c :: c in scope ==> c in init || c == last;
      Scores(documents, init, query, sqrt)
        + (if HasEmbedding(last) then [ScoreChunk(documents, last, query, sqrt)] else [])
  }

  /** Filtering to the scope works piecewise, so the scope keeps table order. */
  lemma {:induction false} ScopeChunksAppend(documents: map<nat, Document>, a: seq<Chunk>, b: seq<Chunk>, chatbotId: nat)
    ensures ScopeChunks(documents, a + b, chatbotId) == ScopeChunks(documents, a, chatbotId) + ScopeChunks(documents, b, chatbotId)
    decreases |b|
  {
    if b == [] {
      assert a + b == a;
    } else {
      LastOfAppend(a, b);
      ScopeChunksAppend(documents, a, b[..|b| - 1], chatbotId);
    }
  }

  /** Scoring works piecewise, so the scored list keeps the order of its input. */
  lemma {:induction false} ScoresAppend(documents: map<nat, Document>, a: seq<Chunk>, b: seq<Chunk>, q: Embedding,
                                        sqrt: real -> real)
    requires forall c :: c in a ==> c.documentId in documents
    requires forall c :: c in b ==> c.documentId in documents
    requires forall c :: c in a + b ==> c.documentId in documents
    ensures Scores(documents, a + b, q, sqrt) == Scores(documents, a, q, sqrt) + Scores(documents, b, q, sqrt)
    decreases |b|
  {
    if b == [] {
      assert a + b == a;
    } else {
      var init, last := b[..|b| - 1], b[|b| - 1];
      var s := a + b;
      LastOfAppend(a, b);
      assert forall c :: c in init ==> c in b;
      assert forall c :: c in a + init ==> c in a + b;
      ScoresAppend(documents, a, init, q, sqrt);
      var tail := if HasEmbedding(last) then [ScoreChunk(documents, last, q, sqrt)] else [];
      assert Scores(documents, s, q, sqrt) == Scores(documents, a + init, q, sqrt) + tail;
      assert Scores(documents, b, q, sqrt) == Scores(documents, init, q, sqrt) + tail;
    }
  }

  /**
   * The reference reading of the scoring loop over the whole chunk table: every chunk of the table
   * whose document is one of the chatbot's completed documents and which carries an embedding
   * contributes its scored entry, in table order; no other chunk contributes.
   */
  function TableScores(documents: map<nat, Document>, chunks: seq<Chunk>, chatbotId: nat, q: Embedding,
                       sqrt: real -> real): seq<Scored>
  {
    if chunks == [] then []
    else
      var last := chunks[|chunks| - 1];
      TableScores(documents, chunks[..|chunks| - 1], chatbotId, q, sqrt)
        + (if InScope(documents, chatbotId, last) && HasEmbedding(last) then [ScoreChunk(documents, last, q, sqrt)] else [])
  }

  /** The entries the loop scores are exactly the table's in-scope, embedded chunks, in table order. */
  lemma {:induction false} ScoresFollowTable(documents: map<nat, Document>, chunks: seq<Chunk>, chatbotId: nat,
                                             q: Embedding, sqrt: real -> real)
    ensures forall c :: c in ScopeChunks(documents, chunks, chatbotId) ==> c.documentId in documents
    ensures Scores(documents, ScopeChunks(documents, chunks, chatbotId), q, sqrt)
            == TableScores(documents, chunks, chatbotId, q, sqrt)
    decreases |chunks|
  {
    if chunks != [] {
      var init, last := chunks[..|chunks| - 1], chunks[|chunks| - 1];
      ScoresFollowTable(documents, init, chatbotId, q, sqrt);
      var tail: seq<Chunk> := if InScope(documents, chatbotId, last) then [last] else [];
      assert ScopeChunks(documents, chunks, chatbotId) == ScopeChunks(documents, init, chatbotId) + tail;
      ScoresAppend(documents, ScopeChunks(documents, init, chatbotId), tail, q, sqrt);
      if tail != [] {
        assert tail[..0] == [];
      }
    }
  }

  // ---------------------------------------------------------------------------
  // chunk_scores.sort(key=similarity, reverse=True): a stable sort, highest first

  ghost predicate Descending(s: seq<Scored>) {
    forall i, j :: 0 <= i < j < |s| ==> s[i].similarity >= s[j].similarity
  }

  /** Insert after every entry scoring at least as high, so that equal scores keep their order. */
  function Insert(x: Scored, s: seq<Scored>): (r: seq<Scored>)
    ensures |r| == |s| + 1
  {
    if s == [] then [x]
    else if s[0].similarity < x.similarity then [x] + s
    else [s[0]] + Insert(x, s[1..])
  }

  /** Inserting adds exactly the one entry. */
  lemma {:induction false} InsertPermutes(x: Scored, s: seq<Scored>)
    ensures multiset(Insert(x, s)) == multiset(s) + multiset{x}
    decreases |s|
  {
    if s != [] && s[0].similarity >= x.similarity {
      InsertPermutes(x, s[1..]);
      assert s == [s[0]] + s[1..];
    }
  }

  /** Every entry of `s` scores at most `v`. */
  ghost predicate AtMost(s: seq<Scored>, v: real) {
    forall i :: 0 <= i < |s| ==> s[i].similarity <= v
  }

  lemma DescendingTail(s: seq<Scored>)
    requires Descending(s) && s != []
    ensures Descending(s[1..]) && AtMost(s[1..], s[0].similarity)
  {
    forall i, j | 0 <= i < j < |s[1..]| ensures s[1..][i].similarity >= s[1..][j].similarity {
      assert s[1..][i] == s[i + 1] && s[1..][j] == s[j + 1];
    }
    forall i | 0 <= i < |s[1..]| ensures s[1..][i].similarity <= s[0].similarity {
      assert s[1..][i] == s[i + 1];
    }
  }

  lemma DescendingCons(y: Scored, s: seq<Scored>)
    requires Descending(s) && AtMost(s, y.similarity)
    ensures Descending([y] + s)
  {
    var r := [y] + s;
    forall i, j | 0 <= i < j < |r| ensures r[i].similarity >= r[j].similarity {
      assert r[j] == s[j - 1];
      if i > 0 { assert r[i] == s[i - 1]; }
    }
  }

  lemma {:induction false} InsertAtMost(x: Scored, s: seq<Scored>, v: real)
    requires AtMost(s, v) && x.similarity <= v
    ensures AtMost(Insert(x, s), v)
    decreases |s|
  {
    if s != [] && s[0].similarity >= x.similarity {
      assert AtMost(s[1..], v) by {
        forall i | 0 <= i < |s[1..]| ensures s[1..][i].similarity <= v { assert s[1..][i] == s[i + 1]; }
      }
      InsertAtMost(x, s[1..], v);
      var r := [s[0]] + Insert(x, s[1..]);
      forall i | 0 <= i < |r| ensures r[i].similarity <= v {
        if i > 0 { assert r[i] == Insert(x, s[1..])[i - 1]; }
      }
    } else if s != [] {
      var r := [x] + s;
      forall i | 0 <= i < |r| ensures r[i].similarity <= v {
        if i > 0 { assert r[i] == s[i - 1]; }
      }
    }
  }

  lemma {:induction false} InsertDescending(x: Scored, s: seq<Scored>)
    requires Descending(s)
    ensures Descending(Insert(x, s))
    decreases |s|
  {
    if s == [] {
    } else if s[0].similarity < x.similarity {
      DescendingTail(s);
      assert AtMost(s, x.similarity) by {
        forall i | 0 <= i < |s| ensures s[i].similarity <= x.similarity {
          if i > 0 { assert s[i] == s[1..][i - 1]; }
        }
      }
      DescendingCons(x, s);
    } else {
      DescendingTail(s);
      InsertDescending(x, s[1..]);
      InsertAtMost(x, s[1..], s[0].similarity);
      DescendingCons(s[0], Insert(x, s[1..]));
    }
  }

  /** `list.sort(key=similarity, reverse=True)`. */
  function SortByScore(s: seq<Scored>): (r: seq<Scored>)
    ensures Descending(r)
    ensures |r| == |s|
  {
    if s == [] then []
    else
      var init := s[..|s| - 1];
      InsertDescending(s[|s| - 1], SortByScore(init));
      Insert(s[|s| - 1], SortByScore(init))
  }

  /** The sort is a permutation of its input. */
  lemma {:induction false} SortPermutes(s: seq<Scored>)
    ensures multiset(SortByScore(s)) == multiset(s)
    decreases |s|
  {
    if s != [] {
      var init := s[..|s| - 1];
      assert s == init + [s[|s| - 1]];
      SortPermutes(init);
      InsertPermutes(s[|s| - 1], SortByScore(init));
    }
  }

  /** The entries scoring exactly `v`, in order. */
  function WithScore(s: seq<Scored>, v: real): seq<Scored> {
    if s == [] then [] else (if s[0].similarity == v then [s[0]] else []) + WithScore(s[1..], v)
  }

  lemma {:induction false} WithScoreAppend(a: seq<Scored>, b: seq<Scored>, v: real)
    ensures WithScore(a + b, v) == WithScore(a, v) + WithScore(b, v)
    decreases |a|
  {
    if a != [] {
      assert (a + b)[1..] == a[1..] + b;
      WithScoreAppend(a[1..], b, v);
    } else {
      assert a + b == b;
    }
  }

  lemma {:induction false} WithScoreNone(s: seq<Scored>, v: real)
    requires forall i :: 0 <= i < |s| ==> s[i].similarity < v
    ensures WithScore(s, v) == []
    decreases |s|
  {
    if s != [] {
      WithScoreNone(s[1..], v);
    }
  }

  lemma {:induction false} InsertStable(x: Scored, s: seq<Scored>, v: real)
    requires Descending(s)
    ensures WithScore(Insert(x, s), v) == WithScore(s, v) + (if x.similarity == v then [x] else [])
    decreases |s|
  {
    if s == [] {
    } else if s[0].similarity < x.similarity {
      assert ([x] + s)[1..] == s;
      if x.similarity == v {
        WithScoreNone(s, v);
      }
    } else {
      assert Descending(s[1..]) by {
        forall i, j | 0 <= i < j < |s[1..]| ensures s[1..][i].similarity >= s[1..][j].similarity {
          assert s[1..][i] == s[i + 1] && s[1..][j] == s[j + 1];
        }
      }
      InsertStable(x, s[1..], v);
      var rest := Insert(x, s[1..]);
      assert Insert(x, s) == [s[0]] + rest;
      assert ([s[0]] + rest)[1..] == rest;
    }
  }

  lemma WithScoreSingle(x: Scored, v: real)
    ensures WithScore([x], v) == if x.similarity == v then [x] else []
  {
    assert [x][1..] == [];
  }

  /** Stability: among entries with equal similarity the sort keeps the original order. */
  lemma {:induction false} SortStable(s: seq<Scored>, v: real)
    ensures WithScore(SortByScore(s), v) == WithScore(s, v)
    decreases |s|
  {
    if s != [] {
      var init := s[..|s| - 1];
      var last := s[|s| - 1];
      var sortedInit := SortByScore(init);
      var tail := if last.similarity == v then [last] else [];
      var inserted := Insert(last, sortedInit);
      assert SortByScore(s) == inserted;
      SortStable(init, v);
      InsertStable(last, sortedInit, v);
      WithScoreSingle(last, v);
      WithScoreAppend(init, [last], v);
      assert init + [last] == s;
      calc {
        WithScore(inserted, v);
        WithScore(sortedInit, v) + tail;
        WithScore(init, v) + WithScore([last], v);
        WithScore(s, v);
      }
    }
  }

  /** Python's `s[:k]`, where a negative `k` counts from the end. */
  function Take<T>(s: seq<T>, k: int): (r: seq<T>)
    ensures r <= s
    ensures 0 <= k ==> |r| == if k < |s| then k else |s|
    ensures k < 0 ==> |r| == if |s| + k < 0 then 0 else |s| + k
  {
    if k >= 0 then Prefix(s, k)
    else if |s| + k < 0 then []
    else s[..|s| + k]
  }

  // ---------------------------------------------------------------------------
  // retrieve_relevant_chunks

  /** The message of `Chatbot.DoesNotExist`. */
  const NoSuchChatbotMessage := "Chatbot matching query does not exist."

  /**
   * What `retrieve_relevant_chunks` returns: embed the query first, then look up the chatbot;
   * with no chunk in scope the list is empty, otherwise the scored chunks sorted by similarity
   * (highest first, ties in table order), cut to `topK`.
   */
  function Retrieval(documents: map<nat, Document>, chunks: seq<Chunk>, chatbotIds: set<nat>, chatbotId: nat,
                     query: string, topK: int, embed: string -> Result<Embedding, string>, sqrt: real -> real)
    : Result<seq<Scored>, string>
  {
    match embed(query)
    case Err(e) => Err(e)
    case Ok(q) =>
      if chatbotId !in chatbotIds then Err(NoSuchChatbotMessage)
      else
        var scope := ScopeChunks(documents, chunks, chatbotId);
        if scope == [] then Ok([])
        else Ok(Take(SortByScore(Scores(documents, scope, q, sqrt)), topK))
  }

  method RetrieveRelevantChunks(db: Db, chatbotId: nat, query: string, topK: int,
                                embed: string -> Result<Embedding, string>, sqrt: real -> real)
    returns (r: Result<seq<Scored>, string>)
    ensures r == Retrieval(db.documents, db.chunks, db.chatbots.Keys, chatbotId, query, topK, embed, sqrt)
  {
    var queryEmbedding := embed(query);
    if queryEmbedding.Err? {
      return Err(queryEmbedding.error);
    }
    if chatbotId !in db.chatbots {
      return Err(NoSuchChatbotMessage);
    }
    var allChunks := ScopeChunks(db.documents, db.chunks, chatbotId);
    if |allChunks| == 0 {
      return Ok([]);
    }
    assert forall c :: c in allChunks ==> c.documentId in db.documents;
    var chunkScores: seq<Scored> := [];
    for i := 0 to |allChunks|
      invariant chunkScores == Scores(db.documents, allChunks[..i], queryEmbedding.value, sqrt)
    {
      var chunk := allChunks[i];
      assert allChunks[i] in allChunks;
      assert forall c :: c in allChunks[..i + 1] ==> c in allChunks;
      if HasEmbedding(chunk) {
        chunkScores := chunkScores + [ScoreChunk(db.documents, chunk, queryEmbedding.value, sqrt)];
      }
      assert allChunks[..i + 1][..i] == allChunks[..i];
    }
    assert allChunks[..|allChunks|] == allChunks;
    chunkScores := SortByScore(chunkScores);
    r := Ok(Take(chunkScores, topK));
  }

  // ---------------------------------------------------------------------------
  // What retrieval promises

  /**
   * The entries returned are chunks of the chatbot's completed documents that carry an
   * embedding, each scored against the query, highest similarity first, at most `topK` of them.
   */
  lemma RetrievalRanked(documents: map<nat, Document>, chunks: seq<Chunk>, chatbotIds: set<nat>, chatbotId: nat,
                        query: string, topK: int, embed: string -> Result<Embedding, string>, sqrt: real -> real)
    requires Retrieval(documents, chunks, chatbotIds, chatbotId, query, topK, embed, sqrt).Ok?
    ensures var rs := Retrieval(documents, chunks, chatbotIds, chatbotId, query, topK, embed, sqrt).value;
            && Descending(rs)
            && (topK >= 0 ==> |rs| <= topK)
            && forall x :: x in rs ==>
                 && x.chunk in chunks && InScope(documents, chatbotId, x.chunk) && HasEmbedding(x.chunk)
                 && x.similarity == Cosine(embed(query).value, x.chunk.embedding.value, sqrt)
                 && x.documentName == documents[x.chunk.documentId].fileName
                 && x.content == x.chunk.content
  {
    var q := embed(query).value;
    var scope := ScopeChunks(documents, chunks, chatbotId);
    if scope != [] {
      var all := Scores(documents, scope, q, sqrt);
      var sorted := SortByScore(all);
      var rs := Take(sorted, topK);
      SortPermutes(all);
      forall x | x in rs
        ensures x in all
      {
        assert x in multiset(sorted);
      }
      assert Descending(rs) by {
        forall i, j | 0 <= i < j < |rs| ensures rs[i].similarity >= rs[j].similarity {
          assert rs[i] == sorted[i] && rs[j] == sorted[j];
        }
      }
    }
  }

  /** Nothing left out scores higher than anything returned. */
  lemma RetrievalKeepsBest(documents: map<nat, Document>, chunks: seq<Chunk>, chatbotId: nat, q: Embedding,
                           topK: int, sqrt: real -> real)
    requires ScopeChunks(documents, chunks, chatbotId) != []
    ensures var sorted := SortByScore(Scores(documents, ScopeChunks(documents, chunks, chatbotId), q, sqrt));
            var rs := Take(sorted, topK);
            forall i, j :: 0 <= i < |rs| <= j < |sorted| ==> rs[i].similarity >= sorted[j].similarity
  {
  }

  /** A chatbot with no completed, in-scope chunk retrieves nothing, once the query is embedded. */
  lemma EmptyScopeRetrievesNothing(documents: map<nat, Document>, chunks: seq<Chunk>, chatbotIds: set<nat>,
                                   chatbotId: nat, query: string, topK: int,
                                   embed: string -> Result<Embedding, string>, sqrt: real -> real)
    requires embed(query).Ok? && chatbotId in chatbotIds
    requires forall c :: c in chunks ==> !InScope(documents, chatbotId, c)
    ensures Retrieval(documents, chunks, chatbotIds, chatbotId, query, topK, embed, sqrt) == Ok([])
  {
    ScopeChunksNone(documents, chunks, chatbotId);
  }

  /** No chunk of the chatbot's documents: the scope is empty. */
  lemma {:induction false} ScopeChunksNone(documents: map<nat, Document>, chunks: seq<Chunk>, chatbotId: nat)
    requires forall c :: c in chunks ==> !InScope(documents, chatbotId, c)
    ensures ScopeChunks(documents, chunks, chatbotId) == []
  {
    if chunks != [] {
      var init := chunks[..|chunks| - 1];
      assert forall c :: c in init ==> c in chunks;
      assert chunks[|chunks| - 1] in chunks;
      ScopeChunksNone(documents, init, chatbotId);
    }
  }

  /**
   * Entries with equal similarity come out of the sort in chunk-table order: the sorted entries
   * scoring `v` are exactly the table's in-scope, embedded chunks scoring `v`, in table order.
   */
  lemma TiesKeepTableOrder(documents: map<nat, Document>, chunks: seq<Chunk>, chatbotId: nat, q: Embedding,
                           sqrt: real -> real, v: real)
    ensures forall c :: c in ScopeChunks(documents, chunks, chatbotId) ==> c.documentId in documents
    ensures WithScore(SortByScore(Scores(documents, ScopeChunks(documents, chunks, chatbotId), q, sqrt)), v)
            == WithScore(TableScores(documents, chunks, chatbotId, q, sqrt), v)
  {
    ScoresFollowTable(documents, chunks, chatbotId, q, sqrt);
    SortStable(Scores(documents, ScopeChunks(documents, chunks, chatbotId), q, sqrt), v);
  }

  /** Three chunks scoring 0.9, 0.9 and 0.5 with `top_k = 2` give the two 0.9 chunks in table order. */
  lemma TieScenario(a: Scored, b: Scored, c: Scored)
    requires a.similarity == 0.9 && b.similarity == 0.9 && c.similarity == 0.5
    ensures Take(SortByScore([a, b, c]), 2) == [a, b]
  {
    assert [a, b, c][..2] == [a, b];
    assert [a, b][..1] == [a];
    assert SortByScore([a]) == [a] by { assert [a][..0] == []; }
    assert [a][1..] == [];
    assert Insert(b, [a]) == [a, b];
    assert SortByScore([a, b]) == [a, b];
    assert [a, b, c][2] == c;
    assert SortByScore([a, b, c]) == Insert(c, [a, b]);
    assert [a, b][1..] == [b];
    assert Insert(c, [b]) == [b] + Insert(c, []);
  }
}
