// Document ingestion: RAGService.process_document (backend/services/rag_service.py).
// A document is marked processing, its text extracted, split into pieces, each piece embedded,
// and the chunks stored in one batch; any failure marks the document failed instead.

module Ingestion {
  import opened Wrappers
  import opened Text
  import opened Documents
  import opened Extraction
  import opened Database

  /** The message of the ValueError Django raises when a row's file field is empty. */
  const NoFileMessage := "The 'file' attribute has no file associated with it."
  const NoTextMessage := "No text could be extracted from document"
  const NoChunksMessage := "Document splitting produced no chunks"

  /** The dictionary `process_document` returns. */
  datatype ProcessResult =
    | Processed(documentId: nat, chunksCreated: nat, totalCharacters: nat)
    | ProcessFailed(documentId: nat, error: string)

  /**
   * Embeddings of the pieces in order, or the error of the first piece whose embedding fails
   * (the loop stops there: no later piece is embedded).
   */
  function EmbedAll(pieces: seq<string>, embed: string -> Result<Embedding, string>)
    : (r: Result<seq<Embedding>, string>)
    ensures r.Ok? ==> |r.value| == |pieces| && forall i :: 0 <= i < |pieces| ==> embed(pieces[i]) == Ok(r.value[i])
    ensures r.Err? ==> exists i :: 0 <= i < |pieces| && embed(pieces[i]) == Err(r.error)
                                && forall j :: 0 <= j < i ==> embed(pieces[j]).Ok?
  {
    if pieces == [] then Ok([])
    else
      var init := pieces[..|pieces| - 1];
      assert forall i :: 0 <= i < |init| ==> init[i] == pieces[i];
      match EmbedAll(init, embed)
      case Err(e) => Err(e)
      case Ok(vectors) =>
        match embed(pieces[|pieces| - 1])
        case Err(e) => Err(e)
        case Ok(v) => Ok(vectors + [v])
  }

  /** Once a prefix fails, the whole sequence fails with the same error. */
  lemma {:induction false} EmbedAllPrefixError(pieces: seq<string>, n: nat, embed: string -> Result<Embedding, string>)
    requires n <= |pieces| && EmbedAll(pieces[..n], embed).Err?
    ensures EmbedAll(pieces, embed) == EmbedAll(pieces[..n], embed)
    decreases |pieces|
  {
    if n < |pieces| {
      var init := pieces[..|pieces| - 1];
      assert init[..n] == pieces[..n];
      EmbedAllPrefixError(init, n, embed);
    } else {
      assert pieces[..n] == pieces;
    }
  }

  /** The chunk row built for piece `index`, as the loop of `process_document` builds it. */
  function MakeChunk(documentId: nat, index: nat, content: string, embedding: Embedding, total: nat): Chunk {
    Chunk(documentId, content, index, Some(embedding), ChunkMetadata(|content|, index + 1, total))
  }

  function ChunksFor(documentId: nat, pieces: seq<string>, vectors: seq<Embedding>): seq<Chunk>
    requires |vectors| == |pieces|
  {
    seq(|pieces|, i requires 0 <= i < |pieces| => MakeChunk(documentId, i, pieces[i], vectors[i], |pieces|))
  }

  /** What a successful run stores: the extracted text and the new chunks. */
  datatype Ingested = Ingested(text: string, chunks: seq<Chunk>)

  /**
   * The work between the two saves of `process_document`: the text and chunks it produces,
   * or the message of the first exception raised.
   */
  function Ingest(d: Document, source: FileSource, split: string -> seq<string>,
                  embed: string -> Result<Embedding, string>): Result<Ingested, string>
  {
    if !HasFile(d.file) then Err(NoFileMessage)
    else
      match ExtractText(source, d.fileType)
      case Err(e) => Err(e)
      case Ok(text) =>
        if Strip(text) == "" then Err(NoTextMessage)
        else
          var pieces := split(text);
          if pieces == [] then Err(NoChunksMessage)
          else
            match EmbedAll(pieces, embed)
            case Err(e) => Err(e)
            case Ok(vectors) => Ok(Ingested(text, ChunksFor(d.id, pieces, vectors)))
  }

  /** The row as first saved: status processing, metadata filled in by `save()`. */
  function StartRow(d: Document): Document {
    Saved(d.(status := Processing))
  }

  /** The row as finally saved: completed with count and time, or failed with the message. */
  function FinalRow(start: Document, outcome: Result<Ingested, string>, now: nat): Document {
    match outcome
    case Ok(ing) => Saved(start.(status := Completed, chunkCount := |ing.chunks|, processedAt := Some(now)))
    case Err(e) => Saved(start.(status := Failed, errorMessage := Some(e)))
  }

  function StoredChunks(outcome: Result<Ingested, string>): seq<Chunk> {
    if outcome.Ok? then outcome.value.chunks else []
  }

  function ResultOf(documentId: nat, outcome: Result<Ingested, string>): ProcessResult {
    match outcome
    case Ok(ing) => Processed(documentId, |ing.chunks|, |ing.text|)
    case Err(e) => ProcessFailed(documentId, e)
  }

  // ---------------------------------------------------------------------------
  // What a run produces

  /**
   * A successful run stores one chunk per piece of the split text, in order, each with its
   * index, its own embedding and its metadata, all for this document; the text was not blank.
   */
  lemma IngestedChunks(d: Document, source: FileSource, split: string -> seq<string>,
                       embed: string -> Result<Embedding, string>)
    requires Ingest(d, source, split, embed).Ok?
    ensures var ing := Ingest(d, source, split, embed).value;
            var pieces := split(ing.text);
            && ExtractText(source, d.fileType) == Ok(ing.text)
            && !AllSpace(ing.text)
            && |ing.chunks| == |pieces| >= 1
            && forall i :: 0 <= i < |pieces| ==>
                 && ing.chunks[i].documentId == d.id
                 && ing.chunks[i].content == pieces[i]
                 && ing.chunks[i].chunkIndex == i
                 && embed(pieces[i]) == Ok(ing.chunks[i].embedding.value)
                 && ing.chunks[i].metadata == ChunkMetadata(|pieces[i]|, i + 1, |pieces|)
  {
    var text := ExtractText(source, d.fileType).value;
    StripEmptyIff(text);
  }

  /** Every failure is one of the five the code raises. */
  lemma IngestFailures(d: Document, source: FileSource, split: string -> seq<string>,
                       embed: string -> Result<Embedding, string>)
    requires Ingest(d, source, split, embed).Err?
    ensures var e := Ingest(d, source, split, embed).error;
            || (!HasFile(d.file) && e == NoFileMessage)
            || ExtractText(source, d.fileType) == Err(e)
            || (ExtractText(source, d.fileType).Ok? && AllSpace(ExtractText(source, d.fileType).value)
                && e == NoTextMessage)
            || (ExtractText(source, d.fileType).Ok? && split(ExtractText(source, d.fileType).value) == []
                && e == NoChunksMessage)
            || (exists p :: p in split(ExtractText(source, d.fileType).value) && embed(p) == Err(e))
  {
    if HasFile(d.file) && ExtractText(source, d.fileType).Ok? {
      StripEmptyIff(ExtractText(source, d.fileType).value);
    }
  }

  /** Blank text never reaches the splitter. */
  lemma BlankTextFails(d: Document, source: FileSource, split: string -> seq<string>,
                       embed: string -> Result<Embedding, string>)
    requires HasFile(d.file)
    requires ExtractText(source, d.fileType).Ok? && AllSpace(ExtractText(source, d.fileType).value)
    ensures Ingest(d, source, split, embed) == Err(NoTextMessage)
  {
    StripEmptyIff(ExtractText(source, d.fileType).value);
  }

  /**
   * The final row keeps its id and chatbot, ends in a terminal status, and on success records the
   * chunk count and time while keeping any earlier error message; on failure it keeps the
   * previous chunk count and processing time.
   */
  lemma FinalRowEffects(start: Document, outcome: Result<Ingested, string>, now: nat)
    ensures var row := FinalRow(start, outcome, now);
            && row.id == start.id && row.chatbotId == start.chatbotId && row.file == start.file
            && (row.status == Completed <==> outcome.Ok?)
            && (row.status == Failed <==> outcome.Err?)
            && (outcome.Ok? ==> row.chunkCount == |outcome.value.chunks| && row.processedAt == Some(now)
                                && row.errorMessage == start.errorMessage)
            && (outcome.Err? ==> row.chunkCount == start.chunkCount && row.processedAt == start.processedAt
                                 && row.errorMessage == Some(outcome.error))
  {
  }

  /** The final row and the chunks stored by the run agree. */
  lemma FinalRowAgrees(start: Document, source: FileSource, split: string -> seq<string>,
                       embed: string -> Result<Embedding, string>, now: nat)
    ensures var outcome := Ingest(start, source, split, embed);
            ChunksAgree(FinalRow(start, outcome, now), StoredChunks(outcome))
  {
    var outcome := Ingest(start, source, split, embed);
    if outcome.Ok? {
      IngestedChunks(start, source, split, embed);
    }
  }

  /**
   * Appending a document's new chunks to a table that had none of them restores agreement
   * for every document, given it held for all the others.
   */
  lemma AppendRestoresAgreement(docs: map<nat, Document>, chunks: seq<Chunk>, id: nat, row: Document, added: seq<Chunk>)
    requires forall k :: k in docs && k != id ==> ChunksAgree(docs[k], ChunksOf(chunks, k))
    requires ChunksOf(chunks, id) == []
    requires forall c :: c in added ==> c.documentId == id
    requires ChunksAgree(row, added)
    ensures forall k :: k in docs[id := row] ==> ChunksAgree(docs[id := row][k], ChunksOf(chunks + added, k))
  {
    forall k | k in docs[id := row]
      ensures ChunksAgree(docs[id := row][k], ChunksOf(chunks + added, k))
    {
      ChunksOfAppend(chunks, added, k);
      if k == id {
        ChunksOfAll(added, id);
        assert [] + added == added;
      } else {
        ChunksOfNone(added, k);
        assert ChunksOf(chunks, k) + [] == ChunksOf(chunks, k);
      }
    }
  }

  // ---------------------------------------------------------------------------
  // process_document

  /**
   * The end of `process_document`: on success store the chunks in one batch and save the row
   * as completed; otherwise (the `except` branch) save it as failed with the message.
   */
  method SaveOutcome(db: Db, document: Document, outcome: Result<Ingested, string>, now: nat)
    returns (result: ProcessResult)
    modifies db
    ensures db.documents == old(db.documents)[document.id := FinalRow(document, outcome, now)]
    ensures db.chunks == old(db.chunks) + StoredChunks(outcome)
    ensures result == ResultOf(document.id, outcome)
    ensures db.users == old(db.users) && db.chatbots == old(db.chatbots)
    ensures db.conversations == old(db.conversations) && db.messages == old(db.messages)
    ensures db.files == old(db.files) && db.nextId == old(db.nextId)
  {
    match outcome
    case Err(error) =>
      var failed := document.(status := Failed, errorMessage := Some(error));
      failed := Saved(failed);
      db.documents := db.documents[document.id := failed];
      result := ProcessFailed(document.id, error);
    case Ok(ingested) =>
      var built := ingested.chunks;
      db.chunks := db.chunks + built;
      var completed := document.(status := Completed, chunkCount := |built|, processedAt := Some(now));
      completed := Saved(completed);
      db.documents := db.documents[document.id := completed];
      result := Processed(document.id, |built|, |ingested.text|);
  }

  lemma MapOverwrite(m: map<nat, Document>, k: nat, a: Document, b: Document)
    ensures m[k := a][k := b] == m[k := b]
  {
  }

  /** The loop of `process_document`: embed each piece and build its chunk, stopping at the first failure. */
  method EmbedPieces(documentId: nat, pieces: seq<string>, embed: string -> Result<Embedding, string>)
    returns (r: Result<seq<Chunk>, string>)
    ensures EmbedAll(pieces, embed).Ok? ==> r == Ok(ChunksFor(documentId, pieces, EmbedAll(pieces, embed).value))
    ensures EmbedAll(pieces, embed).Err? ==> r == Err(EmbedAll(pieces, embed).error)
  {
    var built: seq<Chunk> := [];
    ghost var vectors: seq<Embedding> := [];
    var idx := 0;
    while idx < |pieces|
      invariant 0 <= idx <= |pieces| && |built| == idx && |vectors| == idx
      invariant EmbedAll(pieces[..idx], embed) == Ok(vectors)
      invariant forall j :: 0 <= j < idx ==> built[j] == MakeChunk(documentId, j, pieces[j], vectors[j], |pieces|)
    {
      var embedding := embed(pieces[idx]);
      assert pieces[..idx + 1][..idx] == pieces[..idx];
      if embedding.Err? {
        EmbedAllPrefixError(pieces, idx + 1, embed);
        return Err(embedding.error);
      }
      built := built + [MakeChunk(documentId, idx, pieces[idx], embedding.value, |pieces|)];
      vectors := vectors + [embedding.value];
      idx := idx + 1;
    }
    assert pieces[..idx] == pieces;
    assert built == ChunksFor(documentId, pieces, vectors);
    r := Ok(built);
  }

  /**
   * The body of the `try` block of `process_document` between the two saves: extract, check,
   * split, then embed piece by piece.
   */
  method RunPipeline(document: Document, source: FileSource, split: string -> seq<string>,
                     embed: string -> Result<Embedding, string>)
    returns (outcome: Result<Ingested, string>)
    ensures outcome == Ingest(document, source, split, embed)
  {
    if !HasFile(document.file) {
      return Err(NoFileMessage);
    }
    var extracted := ExtractText(source, document.fileType);
    if extracted.Err? {
      return Err(extracted.error);
    }
    var text := extracted.value;
    if Strip(text) == "" {
      return Err(NoTextMessage);
    }
    var pieces := split(text);
    if |pieces| == 0 {
      return Err(NoChunksMessage);
    }
    var built := EmbedPieces(document.id, pieces, embed);
    match built
    case Err(e) => outcome := Err(e);
    case Ok(chunks) => outcome := Ok(Ingested(text, chunks));
  }

  /**
   * `process_document(document_id)`. The new state is the old one with the document's row
   * replaced by its final row and the new chunks appended; the result reports the outcome.
   * Run on a document without chunks, it leaves every document's chunks agreeing with its row.
   */
  method ProcessDocument(db: Db, documentId: nat, source: FileSource, split: string -> seq<string>,
                         embed: string -> Result<Embedding, string>, now: nat)
    returns (result: ProcessResult)
    requires documentId in db.documents && db.documents[documentId].id == documentId
    modifies db
    ensures var start := StartRow(old(db.documents[documentId]));
            var outcome := Ingest(start, source, split, embed);
            && result == ResultOf(documentId, outcome)
            && db.chunks == old(db.chunks) + StoredChunks(outcome)
            && db.documents == old(db.documents)[documentId := FinalRow(start, outcome, now)]
    ensures db.users == old(db.users) && db.chatbots == old(db.chatbots)
    ensures db.conversations == old(db.conversations) && db.messages == old(db.messages)
    ensures db.files == old(db.files) && db.nextId == old(db.nextId)
    ensures old(db.Valid()) ==> db.Valid()
    ensures old(db.ChunksConsistentExcept(documentId)) && old(ChunksOf(db.chunks, documentId)) == []
            ==> db.ChunksConsistent()
  {
    ghost var before: map<nat, Document> := db.documents;
    ghost var chunksBefore := db.chunks;
    ghost var linked := db.Valid();
    ghost var agreed := db.ChunksConsistentExcept(documentId) && ChunksOf(db.chunks, documentId) == [];
    var document := db.documents[documentId];
    document := document.(status := Processing);
    document := Saved(document);
    db.documents := db.documents[documentId := document];
    var outcome := RunPipeline(document, source, split, embed);
    ghost var final := FinalRow(document, outcome, now);
    result := SaveOutcome(db, document, outcome, now);
    assert db.documents == before[documentId := document][documentId := final];
    MapOverwrite(before, documentId, document, final);
    FinalRowAgrees(document, source, split, embed, now);
    FinalRowEffects(document, outcome, now);
    ghost var added := StoredChunks(outcome);
    if outcome.Ok? {
      IngestedChunks(document, source, split, embed);
    }
    assert forall c :: c in added ==> c.documentId == documentId;
    if linked {
      RowRewriteKeepsLinks(before, db.chatbots, db.nextId, chunksBefore, documentId, final, added);
    }
    if agreed {
      AppendRestoresAgreement(before, chunksBefore, documentId, final, added);
    }
  }
}
