// The document endpoints (DocumentViewSet, backend/documents/views.py): upload and process,
// reprocess, list a document's chunks, and delete a document with its file and chunks.

module DocumentViews {
  import opened Wrappers
  import opened Http
  import opened Text
  import opened Accounts
  import opened Chatbots
  import opened Documents
  import opened Database
  import opened Extraction
  import opened Ingestion

  const DeletedMessage := "Document and all associated chunks deleted"

  /** `get_serializer_class`: the upload serializer for `create`, the full one for every other action. */
  datatype SerializerClass = DocumentUploadSerializer | DocumentSerializer

  function SerializerFor(action: string): (c: SerializerClass)
    ensures c == DocumentUploadSerializer <==> action == "create"
  {
    if action == "create" then DocumentUploadSerializer else DocumentSerializer
  }

  /** The primary-key field's message for a chatbot id that names no row. */
  function InvalidChatbotMessage(pk: nat): string {
    "Invalid pk \"" + NatToString(pk) + "\" - object does not exist."
  }

  // ---------------------------------------------------------------------------
  // create

  /**
   * `is_valid()` of the upload serializer: the field checks (the chatbot must exist, the file's
   * extension must be allowed), and only when both pass, `validate` with the requester's limit.
   */
  function UploadCheck(chatbots: map<nat, Chatbot>, users: map<nat, User>, documents: map<nat, Document>,
                       requester: nat, data: UploadData): (r: Result<UploadData, seq<string>>)
    requires requester in users
    ensures r.Ok? <==>
              && data.chatbotId in chatbots
              && ValidatorExtension(data.file.name) in FileTypeCodes
              && chatbots[data.chatbotId].owner == requester
              && DocumentCount(documents, data.chatbotId) < users[requester].maxDocumentsPerChatbot
    ensures r.Ok? ==> r.value == data
    ensures r.Err? ==> r.error != []
  {
    var extension := ValidateExtension(data.file);
    if data.chatbotId !in chatbots || extension.Err? then
      Err((if data.chatbotId in chatbots then [] else [InvalidChatbotMessage(data.chatbotId)])
          + (if extension.Ok? then [] else [extension.error]))
    else
      match ValidateUpload(chatbots[data.chatbotId].owner, requester, DocumentCount(documents, data.chatbotId),
                           users[requester].maxDocumentsPerChatbot, data)
      case Ok(d) => Ok(d)
      case Err(e) => Err([e])
  }

  /** Every upload that passes validation has a name storage can clean. */
  lemma UploadCheckStorable(chatbots: map<nat, Chatbot>, users: map<nat, User>, documents: map<nat, Document>,
                            requester: nat, data: UploadData)
    requires requester in users
    requires UploadCheck(chatbots, users, documents, requester, data).Ok?
    ensures ValidName(Basename(data.file.name)).Some?
  {
    AcceptedNameIsStorable(data.file.name);
  }

  /**
   * The row `serializer.save()` creates: `save()` derives the metadata from the uploaded name,
   * then storage files the upload as `stored`.
   */
  function UploadedRow(id: nat, data: UploadData, stored: string): Document {
    var d := Documents.Saved(NewDocument(id, data.chatbotId, data.file));
    d.(file := FileRef(stored, data.file.size))
  }

  /**
   * The name storage files an upload under: the chatbot's upload path with the uploaded name
   * cleaned by `get_valid_name`. Only uploads whose name can be cleaned get this far:
   * `UploadCheck` accepts no other (see `UploadCheckStorable`).
   */
  function StoredName(data: UploadData): (p: string)
    requires ValidName(Basename(data.file.name)).Some?
    ensures UploadDirectoryPrefix <= p
  {
    StorageName(data.chatbotId, Basename(data.file.name))
  }

  /**
   * A new row is pending, has no chunks, and records the uploaded name, its type and its size;
   * the stored file lies in the chatbot's directory under the cleaned form of that name.
   */
  lemma UploadedRowMetadata(id: nat, data: UploadData)
    requires ValidName(Basename(data.file.name)).Some?
    ensures var row := UploadedRow(id, data, StoredName(data));
            && row.id == id && row.chatbotId == data.chatbotId
            && row.status == Pending && row.chunkCount == 0 && row.errorMessage.None?
            && row.fileName == Basename(data.file.name) && row.fileSize == data.file.size
            && row.fileType == FileTypeOf(row.fileName)
            && row.file.name == UploadPath(data.chatbotId, ValidName(row.fileName).value)
            && Basename(row.file.name) == ValidName(row.fileName).value
  {
    StorableIsSet(data.file.name);
    StorageNameBasename(data.chatbotId, Basename(data.file.name));
  }

  /** An uploaded `my report.pdf` keeps its name in the row but is stored as `my_report.pdf`. */
  lemma SpacedNameStoredUnderscored(id: nat, data: UploadData)
    requires data.chatbotId == 1 && data.file.name == "my report.pdf"
    ensures ValidName(Basename(data.file.name)).Some?
    ensures UploadedRow(id, data, StoredName(data)).fileName == "my report.pdf"
    ensures UploadedRow(id, data, StoredName(data)).file.name == "documents/chatbot_1/my_report.pdf"
  {
    assert Basename(data.file.name) == "my report.pdf";
    StorageNameOfSpacedName();
    StorableIsSet(data.file.name);
  }

  /** The answer to an upload: the serializer's errors, or the new row (as first saved) and the processing result. */
  datatype UploadResponse =
    | UploadRejected(errors: seq<string>)
    | UploadCreated(document: Document, processing: ProcessResult)

  /** An upload that passes validation is answered 201 whatever processing made of it. */
  function UploadStatus(r: UploadResponse): (code: nat)
    ensures code == HttpCreated <==> r.UploadCreated?
    ensures code == HttpBadRequest <==> r.UploadRejected?
  {
    if r.UploadCreated? then HttpCreated else HttpBadRequest
  }

  /** `serializer.save()`, with storage filing the upload as `stored`, followed by `process_document` on the new row. */
  method CreateAndProcess(db: Db, data: UploadData, stored: string, source: FileSource,
                          split: string -> seq<string>, embed: string -> Result<Embedding, string>, now: nat)
    returns (row: Document, result: ProcessResult)
    requires db.Valid() && data.chatbotId in db.chatbots
    modifies db
    ensures var id := old(db.nextId);
            var start := StartRow(UploadedRow(id, data, stored));
            var outcome := Ingest(start, source, split, embed);
            && row == UploadedRow(id, data, stored)
            && result == ResultOf(id, outcome)
            && db.documents == old(db.documents)[id := FinalRow(start, outcome, now)]
            && db.chunks == old(db.chunks) + StoredChunks(outcome)
            && db.files == old(db.files) + {row.file.name}
            && db.nextId == id + 1
    ensures db.users == old(db.users) && db.chatbots == old(db.chatbots)
    ensures db.conversations == old(db.conversations) && db.messages == old(db.messages)
    ensures db.Valid()
    ensures old(db.ChunksConsistent()) ==> db.ChunksConsistent()
    ensures DocumentCount(db.documents, data.chatbotId) == old(DocumentCount(db.documents, data.chatbotId)) + 1
  {
    assert db.nextId !in db.documents;
    var id := db.NewId();
    row := UploadedRow(id, data, stored);
    result := InsertAndProcess(db, row, source, split, embed, now);
  }

  /** Inserts a fresh row, stores its file and processes it. */
  method InsertAndProcess(db: Db, row: Document, source: FileSource,
                          split: string -> seq<string>, embed: string -> Result<Embedding, string>, now: nat)
    returns (result: ProcessResult)
    requires db.Valid() && row.id == db.nextId - 1 && row.id !in db.documents && row.chatbotId in db.chatbots
    modifies db
    ensures var start := StartRow(row);
            var outcome := Ingest(start, source, split, embed);
            && result == ResultOf(row.id, outcome)
            && db.documents == old(db.documents)[row.id := FinalRow(start, outcome, now)]
            && db.chunks == old(db.chunks) + StoredChunks(outcome)
            && db.files == old(db.files) + {row.file.name}
            && db.nextId == old(db.nextId)
    ensures db.users == old(db.users) && db.chatbots == old(db.chatbots)
    ensures db.conversations == old(db.conversations) && db.messages == old(db.messages)
    ensures db.Valid()
    ensures old(db.ChunksConsistent()) ==> db.ChunksConsistent()
    ensures DocumentCount(db.documents, row.chatbotId) == old(DocumentCount(db.documents, row.chatbotId)) + 1
  {
    ghost var before: map<nat, Document> := db.documents;
    db.CreateDocument(row);
    result := ProcessDocument(db, row.id, source, split, embed, now);
    ghost var final := FinalRow(StartRow(row), Ingest(StartRow(row), source, split, embed), now);
    assert db.documents == before[row.id := row][row.id := final];
    MapOverwrite(before, row.id, row, final);
    DocumentCountInsert(before, row.id, final, row.chatbotId);
  }

  /**
   * `create`: validate, create the row and store the file, then process the new document
   * synchronously. The response carries the row as it was before processing.
   */
  method UploadDocument(db: Db, requester: nat, data: UploadData, source: FileSource,
                        split: string -> seq<string>, embed: string -> Result<Embedding, string>, now: nat)
    returns (r: UploadResponse)
    requires requester in db.users && db.Valid()
    modifies db
    ensures var check := UploadCheck(old(db.chatbots), old(db.users), old(db.documents), requester, data);
            check.Err? ==>
              && r == UploadRejected(check.error)
              && db.documents == old(db.documents) && db.chunks == old(db.chunks)
              && db.files == old(db.files) && db.nextId == old(db.nextId)
    ensures var check := UploadCheck(old(db.chatbots), old(db.users), old(db.documents), requester, data);
            check.Ok? ==>
              && ValidName(Basename(data.file.name)).Some?
              && var id := old(db.nextId);
                 var row := UploadedRow(id, data, StoredName(data));
                 var start := StartRow(row);
                 var outcome := Ingest(start, source, split, embed);
                 && r == UploadCreated(row, ResultOf(id, outcome))
                 && db.documents == old(db.documents)[id := FinalRow(start, outcome, now)]
                 && db.chunks == old(db.chunks) + StoredChunks(outcome)
                 && db.files == old(db.files) + {row.file.name}
                 && db.nextId == id + 1
    ensures db.users == old(db.users) && db.chatbots == old(db.chatbots)
    ensures db.conversations == old(db.conversations) && db.messages == old(db.messages)
    ensures db.Valid()
    ensures old(db.ChunksConsistent()) ==> db.ChunksConsistent()
    ensures r.UploadCreated? ==>
              DocumentCount(db.documents, data.chatbotId) <= db.users[requester].maxDocumentsPerChatbot
  {
    var check := UploadCheck(db.chatbots, db.users, db.documents, requester, data);
    if check.Err? {
      return UploadRejected(check.error);
    }
    UploadCheckStorable(db.chatbots, db.users, db.documents, requester, data);
    var row, result := CreateAndProcess(db, data, StoredName(data), source, split, embed, now);
    r := UploadCreated(row, result);
  }

  // ---------------------------------------------------------------------------
  // reprocess, chunks, destroy

  /** `get_object()` over `get_queryset()`: the document, when it belongs to one of the requester's chatbots. */
  predicate Visible(chatbots: map<nat, Chatbot>, documents: map<nat, Document>, requester: nat, documentId: nat) {
    documentId in VisibleDocuments(chatbots, documents, requester)
  }

  /**
   * `reprocess`: delete the document's chunks, then run processing again, which sets
   * `processing` directly; the answer is exactly the processing result, or 404.
   */
  method Reprocess(db: Db, requester: nat, documentId: nat, source: FileSource,
                   split: string -> seq<string>, embed: string -> Result<Embedding, string>, now: nat)
    returns (r: Option<ProcessResult>)
    requires db.Valid()
    modifies db
    ensures !Visible(old(db.chatbots), old(db.documents), requester, documentId) ==>
              r.None? && db.documents == old(db.documents) && db.chunks == old(db.chunks)
    ensures Visible(old(db.chatbots), old(db.documents), requester, documentId) ==>
              var start := StartRow(old(db.documents[documentId]));
              var outcome := Ingest(start, source, split, embed);
              && r == Some(ResultOf(documentId, outcome))
              && db.chunks == WithoutDocument(old(db.chunks), documentId) + StoredChunks(outcome)
              && db.documents == old(db.documents)[documentId := FinalRow(start, outcome, now)]
    ensures db.users == old(db.users) && db.chatbots == old(db.chatbots) && db.files == old(db.files)
    ensures db.conversations == old(db.conversations) && db.messages == old(db.messages)
    ensures db.nextId == old(db.nextId)
    ensures db.Valid()
    ensures old(db.ChunksConsistent()) ==> db.ChunksConsistent()
  {
    if !Visible(db.chatbots, db.documents, requester, documentId) {
      return None;
    }
    db.DeleteChunks(documentId);
    var result := ProcessDocument(db, documentId, source, split, embed, now);
    r := Some(result);
  }

  /** `chunks`: the document's chunk rows in table order, or 404. */
  method ListChunks(db: Db, requester: nat, documentId: nat) returns (r: Option<seq<Chunk>>)
    ensures r.Some? <==> Visible(db.chatbots, db.documents, requester, documentId)
    ensures r.Some? ==> r.value == ChunksOf(db.chunks, documentId)
  {
    if !Visible(db.chatbots, db.documents, requester, documentId) {
      return None;
    }
    r := Some(ChunksOf(db.chunks, documentId));
  }

  /** For a consistent store the listed chunks of a processed document are numbered 0, 1, ... in order. */
  lemma ListedChunksNumbered(db: Db, documentId: nat)
    requires db.ChunksConsistent() && documentId in db.documents
    ensures var cs := ChunksOf(db.chunks, documentId);
            && (db.documents[documentId].status == Completed ==> |cs| == db.documents[documentId].chunkCount)
            && (db.documents[documentId].status != Completed ==> cs == [])
            && forall i :: 0 <= i < |cs| ==> cs[i].chunkIndex == i
  {
  }

  /**
   * `destroy`: remove the stored file when the row names one, then the row; the chunk rows
   * go with it. Answers 204 with a message, or 404.
   */
  method Destroy(db: Db, requester: nat, documentId: nat) returns (r: Option<string>)
    requires db.Valid()
    modifies db
    ensures !Visible(old(db.chatbots), old(db.documents), requester, documentId) ==>
              r.None? && db.documents == old(db.documents) && db.chunks == old(db.chunks)
              && db.files == old(db.files)
    ensures Visible(old(db.chatbots), old(db.documents), requester, documentId) ==>
              var d := old(db.documents[documentId]);
              && r == Some(DeletedMessage)
              && db.files == (if HasFile(d.file) then old(db.files) - {d.file.name} else old(db.files))
              && db.documents == old(db.documents) - {documentId}
              && db.chunks == WithoutDocument(old(db.chunks), documentId)
    ensures db.users == old(db.users) && db.chatbots == old(db.chatbots)
    ensures db.conversations == old(db.conversations) && db.messages == old(db.messages)
    ensures db.nextId == old(db.nextId)
    ensures db.Valid()
    ensures old(db.ChunksConsistent()) ==> db.ChunksConsistent()
  {
    if !Visible(db.chatbots, db.documents, requester, documentId) {
      return None;
    }
    var instance := db.documents[documentId];
    if HasFile(instance.file) {
      db.RemoveFile(instance.file.name);
    }
    db.DeleteDocument(documentId);
    r := Some(DeletedMessage);
  }

  /** A deletion is answered 204 with its message, an invisible document 404. */
  function DestroyStatus(r: Option<string>): (code: nat)
    ensures code == HttpNoContent <==> r.Some?
    ensures code == HttpNotFound <==> r.None?
  {
    if r.Some? then HttpNoContent else HttpNotFound
  }

  /** After a deletion no chunk row, and no row of any kind, names the document. */
  lemma DestroyLeavesNoChunks(chunks: seq<Chunk>, documentId: nat)
    ensures ChunksOf(WithoutDocument(chunks, documentId), documentId) == []
    ensures forall c :: c in WithoutDocument(chunks, documentId) ==> c.documentId != documentId
  {
    ChunksOfWithout(chunks, documentId, documentId);
  }
}
