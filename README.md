# ragbot: a Dafny model of the Django back end

ragbot is a Django REST back end for retrieval-augmented chatbots. A user owns chatbots, within a quota. Documents are uploaded to a chatbot, and each upload is processed synchronously:

- the text is extracted from the PDF, DOCX, TXT or Markdown file, by file type;
- the text is split into pieces;
- each piece is embedded;
- the chunks are stored in one batch;
- the document is marked `completed`, or `failed` with the error message.

A chat message is answered in these steps:

1. Retrieve the five chunks of the chatbot's completed documents that are most similar to the message. The ranking is a stable sort by descending cosine similarity.
2. Number those chunks into a context text.
3. Build a prompt from the chatbot's system prompt, that context, the last few turns of the conversation and the message.
4. Ask the chat model.
5. Store the user message and the assistant message. The assistant message records the chunks it used.

The model covers the ingestion and retrieval service and the document and chat endpoints. It also covers the small rule sets around them:

- the upload path, the name Django's storage files an upload under, and the file metadata that `Document.save` derives;
- the serializers' validators;
- the chatbot quota and the active/inactive switch;
- the rules for who may read or delete a conversation;
- the user model's display name, e-mail normalisation and phone pattern.

Layout, one module per file:

- `wrappers.dfy`: `Option` and `Result`.
- `text.dfy`: the Python string operations the code relies on. These are `strip`, `join`, slicing, ASCII `lower`, `replace`, the Unicode decimal digits of `\d`, `rfind`, `str(int)`, and `posixpath.basename` and `splitext`.
- `accounts.dfy`, `chatbots.dfy`, `documents.dfy`: the models and serializers, as datatypes for the rows and functions for the rules.
- `database.dfy`: the class `Db`, which holds every table as a field.
  - The row tables are maps. The chunk and message tables are sequences in insertion order.
  - Its small methods perform the ORM writes the code makes.
  - `Valid()` states that the keys and foreign keys are well formed.
  - `ChunksConsistent()` states that every document's chunk rows agree with its row. The indices run 0..n-1 with total n, a completed document has exactly `chunk_count` chunks, and any other document has none.
- `extraction.dfy`, `ingestion.dfy`, `retrieval.dfy`, `prompting.dfy`: `RAGService`. The loops of the source are methods with loop invariants, each proved equal to a specification function. The properties are lemmas about those functions.
- `http.dfy`: the status codes the endpoints answer with.
- `document_views.dfy`, `chatbot_views.dfy`, `chat_views.dfy`: the endpoints, as methods on `Db`. Each method states the complete new state, and that it preserves `Valid()` and `ChunksConsistent()`.

The outside world enters as parameters:

- the text splitter `split`;
- the embedding service `embed`, which returns a vector or a failure message;
- the chat-completion service `complete`, which returns text and a token count, or a failure message;
- `sqrt`;
- the current time `now`;
- the contents of the stored file (`FileSource`): page texts, paragraph texts, or the file read as text, each of which may fail.

Where the code and its intent diverge, the model follows the code:

- The 10 MB rule sits on `DocumentSerializer`. The upload action uses `DocumentUploadSerializer`, which has no such rule. So an upload is never size-checked (`Documents.UploadIgnoresSize`).
- The chat views call `get_object_or_404` inside `try ... except Exception`. A missing chatbot or conversation is therefore answered with status 500 and the 404's message, not with 404.
- The upload response carries the document row as first saved (status pending), not the processed row.
- The row records the name as uploaded, while storage files the upload under that name cleaned by `get_valid_name`. An upload `my report.pdf` is stored as `documents/chatbot_1/my_report.pdf` but recorded as `my report.pdf` (`DocumentViews.SpacedNameStoredUnderscored`).
- The file-extension validator and `save()` read extensions differently. A name such as `..pdf` passes the validator as a PDF, but `save()` records an empty file type (`Documents.ValidatorAcceptsWhatSaveCannotType`).

## Model

| member | source | states |
|---|---|---|
| Accounts.NewUser | backend/accounts/models.py:12-16 | A new user is on the free plan with no API key and quotas of 3 chatbots, 10 documents per chatbot and 100 queries a month. |
| Accounts.FullNameFallback | backend/accounts/models.py:34-36 | The display name is the username exactly when both name parts are blank. Otherwise it is non-empty and has no whitespace at either end. |
| Accounts.ChatbotCount | backend/accounts/models.py:38-40 | The count is 0 when the relation is absent, and its size otherwise. |
| Accounts.DefaultQuota | backend/accounts/models.py:42-44 | Under the default quota a user may create a chatbot exactly while owning at most two. |
| Accounts.Saved | backend/accounts/models.py:46-48 | Saving stores the e-mail lower-cased character by character (`Text.Lower`), so it has the same length and no ASCII capital. No other field changes. |
| Accounts.SaveIdempotent | backend/accounts/models.py:46-48 | Saving twice stores the same row as saving once. |
| Accounts.SaveIgnoresCase | backend/accounts/models.py:46-48 | Two e-mails that differ only in letter case are stored identically. |
| Accounts.PhoneFullMatchIsShape | backend/accounts/models.py:8 | The direct check of the phone pattern accepts exactly the strings of the form: optional `+`, optional `1`, then 9 to 15 decimal digits of any script, as `\d` matches them. |
| Accounts.PhoneRegexAcceptsTrailingNewline | backend/accounts/models.py:8 | On its own, the pattern also accepts such a string followed by one newline, which the reference form excludes. |
| Accounts.PhoneAcceptsOtherScripts | backend/accounts/models.py:8 | Nine Arabic-Indic digits match the pattern, because `\d` in a `str` pattern accepts every Unicode decimal digit. |
| Accounts.PhoneErrors | backend/accounts/models.py:8-9 | A stripped, non-blank value has no errors exactly when it matches the pattern (digits of any script) and has at most 17 characters. The pattern message appears exactly when the pattern fails. |
| Accounts.ValidatePhone | backend/accounts/models.py:8-9 | The accepted value is always the stripped input. A blank phone is accepted as empty. Otherwise the stripped value is accepted exactly when it matches the pattern (digits of any script) and fits in 17 characters. The pattern message appears exactly when the pattern fails. |
| Accounts.ValidateRegistration | backend/accounts/serializers.py:18-21 | Registration is accepted exactly when the two passwords are equal, and the attributes come back unchanged. A mismatch gives one error keyed `password`. |
| Accounts.RegistrationKwargs | backend/accounts/serializers.py:23-25 | User creation receives every validated field except `password_confirm`, with its value unchanged. |
| Accounts.RegistrationDropsConfirmation | backend/accounts/serializers.py:23-25 | After a successful validation the confirmation never reaches user creation, and the password does. |
| Accounts.ApplyProfileUpdate | backend/accounts/serializers.py:37-40 | A sent first name, last name, organization or API key is stored stripped; an unsent one keeps its value. A sent phone makes the update succeed exactly when `ValidatePhone` accepts it, stores the value it returns, and otherwise returns its errors. Without a phone the update succeeds and keeps the phone. No other field changes. |
| Accounts.ProfileUpdateIgnoresOtherKeys | backend/accounts/serializers.py:37-40 | Keys outside the updatable set have no effect on the result. |
| Accounts.ReadOnlyAndUpdatableDisjoint | backend/accounts/serializers.py:35-40 | No profile field is both read-only and updatable. |
| Chatbots.ValidateNameField | backend/chatbots/models.py:13-17 | A name is accepted exactly when its stripped form has 3 to 200 characters, and the stripped form is stored. A blank name is refused as blank, a non-blank name under 3 characters with "Ensure this field has at least 3 characters.", and one over 200 characters with the maximum-length message. |
| Chatbots.ValidateTextField | backend/chatbots/models.py:19-28 | A text field is stored stripped. It is refused, with "This field may not be blank.", exactly when it is blank and the model field does not allow blank. |
| Chatbots.CheckSentText | backend/chatbots/models.py:19-28 | An unsent text field passes as absent. A sent one passes exactly when the field check accepts it, and is then stored stripped. |
| Chatbots.ValidateChatbotInput | backend/chatbots/serializers.py:33-36 | Creation input is accepted exactly when the stripped name has 3 to 200 characters and a sent system prompt is not blank. The accepted input holds the stripped name, description and system prompt and the temperature and token limit as sent. Errors come in field order, and a blank system prompt gives the blank message. |
| Chatbots.ValidateName | backend/chatbots/serializers.py:22-25 | A name is accepted exactly when it has at least 3 characters, comes back unchanged, and a rejection carries the fixed message. |
| Chatbots.NameFieldSubsumesValidateName | backend/chatbots/serializers.py:22-25 | Every name the field checks accept also passes `validate_name`. |
| Chatbots.ValidateTemperature | backend/chatbots/serializers.py:27-30 | A temperature is accepted exactly on the closed interval from 0 to 1, is returned unchanged, and a rejection carries the fixed message. |
| Chatbots.CheckSentName | backend/chatbots/serializers.py:22-25 | A sent name passes the field checks and then `validate_name` exactly when its stripped form has 3 to 200 characters, and is stored stripped. |
| Chatbots.CheckSentTemperature | backend/chatbots/serializers.py:27-30 | A sent temperature passes exactly on the closed interval from 0 to 1 and is kept as sent. |
| Chatbots.TemperatureBounds | backend/chatbots/serializers.py:27-30 | Both bounds and the default 0.7 are accepted; -0.1 and 1.1 are refused. |
| Chatbots.NewChatbot | backend/chatbots/serializers.py:38-40 | The owner is the requester whatever the input says, and the chatbot is active. Every sent field (name, description, system prompt, temperature, token limit) is stored as given. Absent fields take the model defaults: an empty description, the fixed prompt, temperature 0.7 and 500 tokens. |
| Chatbots.ApplyChatbotUpdate | backend/chatbots/serializers.py:7-30 | An update is accepted exactly when a sent name strips to 3 to 200 characters, a sent system prompt is not blank and a sent temperature lies in the closed interval from 0 to 1. On success every sent field replaces the stored one (text fields stripped) and every unsent field, `id` and `owner` keep their values. A bad temperature puts the temperature message last among the errors. |
| Chatbots.EmptyUpdateKeepsChatbot | backend/chatbots/serializers.py:7-30 | An update that sends nothing leaves the chatbot unchanged. |
| Chatbots.UpdateIdempotent | backend/chatbots/serializers.py:7-30 | Applying an accepted update a second time changes nothing further. |
| Chatbots.NewConversation | backend/chatbots/models.py:88-92 | A given title is kept; a conversation created without one gets the default "New Conversation". |
| Chatbots.UntitledConversationIsNew | backend/chatbots/models.py:88-92 | An untitled conversation is called "New Conversation", within the field's 200-character limit. |
| Chatbots.ParseRole | backend/chatbots/models.py:115-119 | A stored value is a role exactly when it is `user`, `assistant` or `system`. |
| Chatbots.RoleRoundTrip | backend/chatbots/models.py:115-119 | Role names and roles correspond one to one, in both directions. |
| Chatbots.MessageStr | backend/chatbots/models.py:161-163 | The string is the role and `: ` followed by the content when it has at most 50 characters. A longer content gives its first 50 characters and `...`. |
| ChatbotViews.SerializerFor | backend/chatbots/views.py:18-21 | The create serializer is chosen exactly for the `create` action. |
| Database.OwnedChatbots | backend/chatbots/views.py:23-24 | The chatbot queryset is exactly the chatbots the requester owns. |
| ChatbotViews.VisibleConversations | backend/chatbots/views.py:82-85 | The conversation queryset is exactly the conversations of chatbots the requester owns. |
| ChatbotViews.CreateStatus | backend/chatbots/views.py:26-43 | The answer is 201 exactly for a created chatbot and 403 exactly for a refusal over the quota. |
| ChatbotViews.CreateChatbot | backend/chatbots/views.py:26-43 | Over the quota the view answers 403 with the limit message and writes nothing. Otherwise input that `ValidateChatbotInput` refuses gives 400 with its errors and writes nothing. Accepted input creates `NewChatbot` for the requester under the next id, changes no other table, and keeps the owner's count within the quota. |
| ChatbotViews.OwnedInsert | backend/chatbots/views.py:38-40 | Saving a new chatbot adds exactly its id, and one to the count, to what its owner owns. |
| ChatbotViews.DefaultQuotaRefusesFourth | backend/chatbots/views.py:31-34 | With the default quota the fourth chatbot is refused with "Maximum 3 chatbots allowed." and the third is not. |
| ChatbotViews.Toggled | backend/chatbots/views.py:46-50 | The flip negates `is_active` and changes nothing else. |
| ChatbotViews.ToggleTwice | backend/chatbots/views.py:46-50 | Toggling twice restores the row. |
| ChatbotViews.ToggleMessage | backend/chatbots/views.py:52-55 | The message says "activated" exactly when the new state is active. |
| ChatbotViews.ToggleActive | backend/chatbots/views.py:45-55 | A chatbot the requester does not own gives 404 (`None`) and no change. Otherwise exactly that row is flipped, and the reply reports the new state. |
| Http.FoundStatus | backend/documents/views.py:68-87 | A detail action (`reprocess`, `chunks`, and `toggle_active` of backend/chatbots/views.py) is answered 200 exactly when `get_object()` finds a row the requester may see, and 404 exactly when it does not. |
| Documents.ParseStatus | backend/documents/models.py:19-24 | A parsed status code names one of the four statuses. |
| Documents.StatusRoundTrip | backend/documents/models.py:19-24 | Every status parses back from its code. |
| Documents.NewDocument | backend/documents/models.py:53-63 | A new row is pending with 0 chunks, no error and no processing time, and its metadata is still empty. |
| Documents.UploadPath | backend/documents/models.py:6-8 | The upload path starts with `documents/chatbot_`. |
| Documents.UploadPathBasename | backend/documents/models.py:6-8 | The basename of the upload path is the file name it was built from. |
| Documents.UploadPathInjective | backend/documents/models.py:6-8 | Distinct chatbots, or distinct file names, never share an upload path. |
| Documents.Underscored | backend/documents/models.py:32-34 | `get_valid_name`'s space replacement: same length, no space left, each space becomes `_` and every other character stays. |
| Documents.KeepNameChars | backend/documents/models.py:32-34 | `get_valid_name`'s filter: the result holds only characters of `[-\w.]` and is no longer than the input. A single character is kept exactly when it matches. |
| Documents.KeepNameCharsAppend | backend/documents/models.py:32-34 | Filtering a concatenation filters each part: characters are kept or dropped one by one, in order. |
| Documents.KeepNameCharsOfClean | backend/documents/models.py:32-34 | A string of `[-\w.]` characters only passes the filter unchanged. |
| Documents.ValidName | backend/documents/models.py:32-34 | A cleaned name is never empty, `.` or `..`, holds only `[-\w.]` characters and is no longer than the name. |
| Documents.ValidNameOfClean | backend/documents/models.py:32-34 | A name of `[-\w.]` characters other than ``, `.` and `..` is its own cleaned name. |
| Documents.ValidNameIdempotent | backend/documents/models.py:32-34 | Cleaning a cleaned name changes nothing. |
| Documents.ValidNameReplacesSpaces | backend/documents/models.py:32-34 | `my report.pdf` cleans to `my_report.pdf`. |
| Documents.ValidNameDropsOthers | backend/documents/models.py:32-34 | A character that is neither whitespace nor in `[-\w.]`, between clean parts, is dropped: `a+b.pdf` cleans to `ab.pdf`. |
| Documents.ValidNameRefusesBlank | backend/documents/models.py:32-34 | A name of spaces only is refused. |
| Documents.ValidNameRefusesDots | backend/documents/models.py:32-34 | `..` is refused. |
| Documents.ValidNameRefusesDotAfterDrop | backend/documents/models.py:32-34 | A name that becomes `.` once a character is dropped is refused. |
| Documents.ValidNameKeepsLastWordChar | backend/documents/models.py:32-34 | A name ending in an ASCII letter, digit or `_` always has a cleaned name. |
| Documents.StorableIsSet | backend/documents/models.py:32-34 | A path whose last component has a cleaned name is not empty, so the file is set. |
| Documents.StorageName | backend/documents/models.py:6-8 | The stored name lies under `documents/chatbot_`. |
| Documents.StorageNameBasename | backend/documents/models.py:6-8 | The basename of the stored name is the cleaned file name. |
| Documents.StorageNameOfSpacedName | backend/documents/models.py:6-8 | `my report.pdf` for chatbot 1 is stored as `documents/chatbot_1/my_report.pdf`. |
| Documents.AcceptedNameEndsInLetter | backend/documents/models.py:32-36 | A name the extension validator accepts ends in an ASCII letter. |
| Documents.AcceptedNameIsStorable | backend/documents/models.py:32-36 | Every name the extension validator accepts has a cleaned name, so storage never refuses an accepted upload. |
| Documents.FileTypeOf | backend/documents/models.py:96-98 | The derived type has no dot, no slash and no ASCII capital, and is no longer than the name. |
| Documents.FileTypeOfNamed | backend/documents/models.py:96-98 | For `stem.ext`, with a stem that does not start with a dot, the type is `ext` lower-cased. |
| Documents.DotsOnlyStemHasNoType | backend/documents/models.py:96-98 | `..pdf` gets the empty type. |
| Documents.Saved | backend/documents/models.py:88-100 | Without a file the row is unchanged. Otherwise the name, size and type are filled in only where they are falsy: the name from the basename of the file's current name (the uploaded name on the first save), the size from the file, the type from the (new) name. Fields that are already set, and all other fields, are kept. |
| Documents.SaveIdempotent | backend/documents/models.py:88-100 | Saving again changes nothing. |
| Documents.ValidatorExtension | backend/documents/models.py:32-36 | The extension the validator compares has no dot and no ASCII capital. |
| Documents.ValidateExtension | backend/documents/models.py:32-36 | A file is accepted exactly when its extension is `pdf`, `txt`, `docx` or `md`, comes back unchanged, and a rejection carries the validator's message. |
| Documents.DotsOnlyStemPassesValidator | backend/documents/models.py:32-36 | The validator reads `..pdf` as a PDF. |
| Documents.ValidatorAcceptsWhatSaveCannotType | backend/documents/models.py:32-36 | `..pdf` passes the validator while `save()` derives the empty type for it. |
| Documents.ValidatorAgreesWithSave | backend/documents/models.py:32-36 | For `stem.ext` with a real stem, the validator and `save()` both read `ext` lower-cased. |
| Documents.ChunkStr | backend/documents/models.py:149-151 | The string is `Chunk <index>: ` followed by the content when that has at most 50 characters. A longer content gives its first 50 characters and `...`. |
| Documents.ChunksOf | backend/documents/models.py:140-147 | A document's chunk list holds only chunks of that document taken from the table, and no more rows than the table. |
| Documents.ChunksOfAppend | backend/documents/models.py:140-147 | The chunks of two stretches of the table, one after the other, are the chunks of both together. Chunks therefore keep their table order. |
| Documents.WithoutDocument | backend/documents/models.py:112-116 | Deleting one document's chunks keeps exactly the chunks of the other documents. |
| Documents.ChunksOfWithout | backend/documents/models.py:112-116 | After that deletion the document's list is empty, and every other document's list is unchanged in content and order. |
| Documents.ValidateFile | backend/documents/serializers.py:27-32 | A file is accepted exactly when its size is at most 10·1024·1024 bytes, comes back unchanged, and a rejection carries the fixed message. |
| Documents.UploadFieldsWritable | backend/documents/serializers.py:14-18 | The fields an upload writes (`chatbot` and `file`) are not read-only. Status, counts, metadata and timestamps are. |
| Documents.ValidateUpload | backend/documents/serializers.py:40-54 | An upload is accepted exactly when the requester owns the chatbot and it holds fewer documents than the requester's limit, and the data comes back unchanged. Ownership is checked first, and each refusal carries its own message. |
| Documents.UploadStaysWithinLimit | backend/documents/serializers.py:48-52 | After an accepted upload the count is at most the limit. |
| Documents.UploadIgnoresSize | backend/documents/serializers.py:35-54 | The upload serializer accepts a file that `validate_file` would reject for its size. |
| Database.VisibleDocuments | backend/documents/views.py:29-32 | The visible documents are exactly those whose chatbot the requester owns. |
| Database.ChatbotDocuments | backend/documents/serializers.py:49 | A chatbot's documents are exactly the rows that point at it. |
| Database.DocumentCountInsert | backend/documents/serializers.py:49 | A new row adds one to its own chatbot's document count and leaves the other chatbots' counts alone. |
| Database.Db.CreateDocument | backend/documents/views.py:40 | The new row is written and its file stored. Nothing else changes, and the new document has no chunk rows yet. |
| Database.Db.DeleteChunks | backend/documents/views.py:74 | Only that document's chunk rows are removed, and every other document's chunks are unchanged. |
| Database.Db.DeleteDocument | backend/documents/models.py:102-107 | The row goes and its chunk rows cascade with it. Chunk consistency and validity are kept. |
| Database.Db.RemoveFile | backend/documents/models.py:104-106 | The stored file is removed and no table changes. |
| Database.Db.SaveChatbot | backend/chatbots/views.py:50 | Exactly that chatbot row is written. |
| Database.Db.SaveConversation | backend/chatbots/chat_views.py:46-50 | Exactly that conversation row is written. |
| Database.Db.AddMessage | backend/chatbots/chat_views.py:53-57 | The message is appended last in creation order. |
| Database.Db.DeleteConversation | backend/chatbots/chat_views.py:182 | The conversation row goes, and exactly its messages cascade with it. |
| Database.MessagesOf | backend/chatbots/chat_views.py:138 | A conversation's messages are taken from the table and all belong to it. They are listed in table order, which `MessagesOfAppend` makes precise. |
| Database.MessagesOfAppend | backend/chatbots/chat_views.py:138 | Listing the messages of two stretches of the table, one after the other, gives the listing of both together. Messages therefore keep their table order. |
| Database.MessagesOutside | backend/chatbots/chat_views.py:182 | The messages a deletion keeps are exactly those of other conversations. |
| Extraction.ExtractText | backend/services/rag_service.py:35-47 | `pdf` goes to the page reader, `docx` to the paragraph reader, and `txt` and `md` to the verbatim read. Any other type fails with "Unsupported file type". Every failure carries the prefix "Failed to extract text: ". |
| Extraction.Kept | backend/services/rag_service.py:54-57 | The kept items are items of the input that pass the test, no more of them than the input has. |
| Extraction.ExtractFromPdf | backend/services/rag_service.py:49-58 | The loop's result is the non-empty page texts, in order, joined by a blank line. |
| Extraction.ExtractFromDocx | backend/services/rag_service.py:60-67 | The loop's result is the unstripped paragraphs with non-blank text, in order, joined by a blank line. |
| Extraction.SkippedContributesNothing | backend/services/rag_service.py:54-57 | A skipped item changes nothing, wherever it stands. |
| Extraction.EmptyPageSkipped | backend/services/rag_service.py:56-57 | An empty page leaves the PDF text as it was. A skipped item contributes no separator either. |
| Extraction.BlankParagraphSkipped | backend/services/rag_service.py:65-66 | A whitespace-only paragraph leaves the DOCX text as it was. |
| Extraction.PdfTextSnoc | backend/services/rag_service.py:54-58 | A further page with text is appended after a blank line. |
| Ingestion.EmbedAll | backend/services/rag_service.py:93-95 | On success there is one embedding per piece, in order, each the one the service returned for that piece. On failure the error is the one the service returned for some piece, and every earlier piece was embedded. |
| Ingestion.EmbedAllPrefixError | backend/services/rag_service.py:93-95 | Once a prefix fails, the whole run fails with the same error. |
| Ingestion.EmbedPieces | backend/services/rag_service.py:92-108 | The loop builds, for piece i, the chunk with index i, its embedding and the metadata (length, i+1, n). It stops at the first failed embedding. |
| Ingestion.RunPipeline | backend/services/rag_service.py:81-108 | The steps inside the `try`, in order: extract, fail on blank text, fail on no pieces, then embed. |
| Ingestion.IngestedChunks | backend/services/rag_service.py:84-108 | On success the text was extracted and is not blank. There are n ≥ 1 chunks, and chunk i has this document, piece i as content, index i, piece i's embedding and metadata (length, i+1, n). |
| Ingestion.IngestFailures | backend/services/rag_service.py:80-95 | Every failure is one the code raises: no file, an extraction error, blank text, no pieces, or an embedding error. |
| Ingestion.BlankTextFails | backend/services/rag_service.py:84-85 | Whitespace-only text fails with the fixed message before the splitter runs. |
| Ingestion.FinalRowEffects | backend/services/rag_service.py:112-128 | The final row is `completed` exactly on success, with the chunk count and time, and `failed` exactly on failure. A failure records the message and keeps the old chunk count and processing time. Id, chatbot and file are kept. |
| Ingestion.FinalRowAgrees | backend/services/rag_service.py:110-115 | The final row and the chunks the run stores agree. |
| Ingestion.AppendRestoresAgreement | backend/services/rag_service.py:110 | The batch insert of a document without chunks restores agreement for every document. |
| Ingestion.SaveOutcome | backend/services/rag_service.py:110-134 | On success the chunks are inserted in one batch and the row completed. On failure nothing is inserted and the row is marked failed. The result reports the outcome. |
| Ingestion.ProcessDocument | backend/services/rag_service.py:74-134 | The row passes through `processing` to its final row and the new chunks are appended. The result is the reported outcome (`chunks_created`, `total_characters` or the error), and validity and chunk consistency are kept. |
| Retrieval.DotSymmetric | backend/services/rag_service.py:141 | The dot product is symmetric. |
| Retrieval.DotTruncates | backend/services/rag_service.py:141 | `zip` ignores the extra components of the longer vector. |
| Retrieval.Cosine | backend/services/rag_service.py:137-148 | A zero magnitude on either side gives 0.0. |
| Retrieval.CosineSymmetric | backend/services/rag_service.py:137-148 | The similarity is symmetric in its two vectors. |
| Retrieval.CosineZeroVector | backend/services/rag_service.py:142-146 | A zero vector scores 0.0 against everything. |
| Retrieval.ScopeChunks | backend/services/rag_service.py:161-164 | The scope holds exactly the chunks of the chatbot's completed documents; `ScopeChunksAppend` fixes their order to table order. |
| Retrieval.ScopeChunksAppend | backend/services/rag_service.py:161-164 | The scope of two stretches of the table, one after the other, is the scope of the first followed by that of the second. The scope therefore keeps table order. |
| Retrieval.Scores | backend/services/rag_service.py:169-179 | Each entry is a chunk of the scope that has an embedding, scored against the query with its document's name and its content. Every chunk of the scope that has an embedding is scored. |
| Retrieval.ScoresAppend | backend/services/rag_service.py:169-179 | Scoring two stretches one after the other gives the first's entries followed by the second's, so entries keep the order of their chunks. |
| Retrieval.ScoresFollowTable | backend/services/rag_service.py:160-179 | The entries scored are exactly the table's chunks of the chatbot's completed documents that have an embedding, one each, in table order (the reference `TableScores`). |
| Retrieval.SortByScore | backend/services/rag_service.py:181 | The sorted list is non-increasing by similarity and of the same length. |
| Retrieval.SortPermutes | backend/services/rag_service.py:181 | The sort is a permutation of its input. |
| Retrieval.SortStable | backend/services/rag_service.py:181 | For every score, the entries with that score keep their input order. |
| Retrieval.Take | backend/services/rag_service.py:182 | `[:k]` gives a prefix of length min(k, n). A negative k counts from the end. |
| Retrieval.RetrieveRelevantChunks | backend/services/rag_service.py:150-182 | The method returns what the specification function `Retrieval` gives. |
| Retrieval.RetrievalRanked | backend/services/rag_service.py:150-182 | The result is non-increasing by score and has at most `top_k` entries. Each entry is an embedded chunk of the chatbot's completed documents, scored against the query, with its document's name and its content. |
| Retrieval.RetrievalKeepsBest | backend/services/rag_service.py:181-182 | Nothing cut off scores higher than anything returned. |
| Retrieval.EmptyScopeRetrievesNothing | backend/services/rag_service.py:166-167 | With no chunk in scope the result is the empty list. |
| Retrieval.TiesKeepTableOrder | backend/services/rag_service.py:160-181 | After sorting, the entries with any given similarity are exactly the table's in-scope, embedded chunks with that similarity, in table order. |
| Retrieval.TieScenario | backend/services/rag_service.py:181-182 | Scores 0.9, 0.9 and 0.5 with `top_k` 2 give the two 0.9 entries in their original order. |
| Prompting.SourceBlock | backend/services/rag_service.py:250 | A block starts with `[Source ` and ends with a newline. |
| Prompting.SourceBlocks | backend/services/rag_service.py:247-251 | There is one block per chunk, with block k numbered k+1 in input order. |
| Prompting.BuildContext | backend/services/rag_service.py:242-253 | The context is the sentinel for no chunks, else the blocks joined by `\n---\n`. |
| Prompting.ContextOfOne | backend/services/rag_service.py:247-253 | One chunk gives exactly its block, with no separator. |
| Prompting.ContextSnoc | backend/services/rag_service.py:247-253 | A further chunk adds a separator and its block, numbered next. |
| Prompting.ContextStartsWithFirstSource | backend/services/rag_service.py:247-253 | The first chunk's block opens the context. |
| Prompting.ContextNeverEmpty | backend/services/rag_service.py:242-253 | The context is never empty. |
| Prompting.SystemText | backend/services/rag_service.py:267-271 | The system text is the system prompt, the fixed introduction, the context and a final newline, each at its place. |
| Prompting.BuildPrompt | backend/services/rag_service.py:255-285 | The loop builds the system entry, then the recent history entries, then the user entry. |
| Prompting.PromptShape | backend/services/rag_service.py:264-285 | The prompt has 2 + min(5, n) entries: the system entry first, the user message last, and between them the last history entries, oldest first, with their roles. |
| Prompting.PromptWithoutHistory | backend/services/rag_service.py:275 | No history and empty history both give the system entry and the user entry only. |
| Prompting.UsedPreview | backend/services/rag_service.py:229 | A preview is the first min(200, n) characters followed by `...`, even for short content. |
| Prompting.ChunksUsed | backend/services/rag_service.py:225-232 | There is one entry per retrieved chunk, in order, with the document's name, the similarity and the preview. |
| Prompting.GenerationFor | backend/services/rag_service.py:235-240 | Any failure gives the fixed apology as the response. |
| Prompting.GenerateResponse | backend/services/rag_service.py:185-240 | In sequence: retrieve five chunks, build the context and the prompt, call the model with the chatbot's temperature and token limit. The result is what `GenerationFor` gives. |
| Prompting.GeneratedChunksRanked | backend/services/rag_service.py:192-233 | A success reports at most five chunks, best first. Each is a chunk of the chatbot's completed documents, with its document's name and its preview. |
| DocumentViews.SerializerFor | backend/documents/views.py:24-27 | The upload serializer is chosen exactly for the `create` action. |
| DocumentViews.UploadCheck | backend/documents/views.py:38-39 | Validation passes exactly when the chatbot exists, the extension is allowed, the requester owns the chatbot and it is below the requester's document limit. The data comes back unchanged, and a failure has at least one message. |
| DocumentViews.UploadCheckStorable | backend/documents/views.py:38-40 | Every upload that passes validation has a name storage can clean. |
| DocumentViews.StoredName | backend/documents/views.py:40 | An upload is stored under `documents/chatbot_`. |
| DocumentViews.UploadedRowMetadata | backend/documents/views.py:40 | The new row is pending with no chunks. It records the uploaded basename, its derived type and its size. The file is stored at the chatbot's upload path of the cleaned name, whose basename is that cleaned name. |
| DocumentViews.SpacedNameStoredUnderscored | backend/documents/views.py:40 | An upload `my report.pdf` to chatbot 1 is recorded as `my report.pdf` and stored as `documents/chatbot_1/my_report.pdf`. |
| DocumentViews.UploadStatus | backend/documents/views.py:43-66 | A validated upload is answered 201 whatever processing made of it; a rejected one 400. |
| DocumentViews.CreateAndProcess | backend/documents/views.py:40-46 | The row is created under the next id with its file stored under the given name, and the new document is processed. The chatbot's document count grows by one. |
| DocumentViews.InsertAndProcess | backend/documents/views.py:40-46 | A fresh row is inserted, its file stored and the document processed: the final row, the new chunks and the stored file are the only changes, and `Valid()` and `ChunksConsistent()` are kept. |
| DocumentViews.UploadDocument | backend/documents/views.py:34-66 | A failed validation answers with the errors and writes nothing. Otherwise the answer carries the row as first saved, with its file under `StoredName`, and the processing result, and the new state holds the final row and the new chunks. After an upload the count is within the limit. |
| DocumentViews.Reprocess | backend/documents/views.py:68-79 | A document the requester cannot see gives 404 with no change. Otherwise the document's chunks are deleted and processing runs from `processing`, never `pending`. The answer is exactly the processing result, and other documents' chunks are unchanged. |
| DocumentViews.ListChunks | backend/documents/views.py:81-87 | The document's chunks are listed in table order, exactly for a visible document. |
| DocumentViews.ListedChunksNumbered | backend/documents/views.py:81-87 | In a consistent store the listed chunks are numbered 0, 1, … A completed document lists exactly `chunk_count` chunks, and any other document lists none. |
| DocumentViews.Destroy | backend/documents/views.py:89-95 | A visible document's file is removed when it has one, and the row goes with its chunks. The answer is the fixed message. An invisible document gives 404 with no change. |
| DocumentViews.DestroyLeavesNoChunks | backend/documents/views.py:89-95 | After deletion no chunk row names the document. |
| DocumentViews.DestroyStatus | backend/documents/views.py:89-95 | A deletion is answered 204, a document the requester cannot see 404, and nothing else. |
| ChatViews.ConversationTitle | backend/chatbots/chat_views.py:49 | The title is the message when it has at most 50 characters. Otherwise it is the first 50 characters and `...`. |
| ChatViews.ChooseConversation | backend/chatbots/chat_views.py:37-50 | A new conversation is started exactly when no id, or the id 0, is sent. An existing one must belong to this chatbot. |
| ChatViews.OpenConversation | backend/chatbots/chat_views.py:37-50 | The conversation is the named one, or a new row titled after the message and tied to the requester or to no one. |
| ChatViews.HistoryTurns | backend/chatbots/chat_views.py:60-67 | The history drops only the just-saved message. Without it, it is every message as a role/content entry, in order. |
| ChatViews.CollectHistory | backend/chatbots/chat_views.py:60-67 | The loop's result is the specification function `HistoryTurns`. |
| ChatViews.HistoryIsLastFourBefore | backend/chatbots/chat_views.py:59-67 | The five latest messages include the one just saved, so the history is the earlier messages' last four at most, oldest first. |
| ChatViews.PostUserMessage | backend/chatbots/chat_views.py:52-67 | The user message is saved under the next id, and the history is the conversation's last four earlier messages, oldest first. |
| ChatViews.Answer | backend/chatbots/chat_views.py:69-89 | A failed generation answers 500 with the error and saves nothing. A success saves the assistant message with the response, the chunks used and the token count. |
| ChatViews.Converse | backend/chatbots/chat_views.py:52-89 | The generation is asked with the message and the last four earlier turns. On failure only the user message was added and the answer is 500. On success exactly the user and assistant messages were added, in that order. |
| ChatViews.ConversationTitleFits | backend/chatbots/models.py:88-92 | A title made from a first message always fits the 200-character `title` field. |
| ChatViews.Respond | backend/chatbots/chat_views.py:37-89 | A new conversation is added under the next id, titled after the message; a sent one leaves the table unchanged. The user message gets a fresh id. The generation gets the conversation's last four earlier messages, and the outcome is `ConverseOutcome`: on failure 500 and only the user message appended, on success both messages appended. |
| ChatViews.ChatEndpoint | backend/chatbots/chat_views.py:12-117 | The endpoint's error and success paths, listed in full below. |
| ChatViews.ChatStatus | backend/chatbots/chat_views.py:92-117 | An answered message is 200; an error reply carries the status chosen on its path. |
| ChatViews.AccessRules | backend/chatbots/chat_views.py:132-136 | An anonymous conversation is readable by the owner alone. Whoever may delete may read. A conversation's own user may read but not delete. |
| ChatViews.ConversationHistory | backend/chatbots/chat_views.py:120-161 | A missing conversation gives 500 and a requester who is neither owner nor the conversation's user gets 403. Otherwise the title and the messages come back in creation order. |
| ChatViews.HistoryStatus | backend/chatbots/chat_views.py:140-161 | A history is 200; an error reply carries the status chosen on its path. |
| ChatViews.DeleteConversation | backend/chatbots/chat_views.py:164-193 | A missing conversation gives 500 and a requester who is not the owner gets 403; neither changes anything. The owner's request removes the conversation and exactly its messages. |
| ChatViews.DeleteStatus | backend/chatbots/chat_views.py:177-193 | A deletion is 204; an error carries the status chosen on its path. |
| ChatViews.DeletionKeepsOtherConversations | backend/chatbots/chat_views.py:182 | Deleting a conversation keeps every other conversation's messages in order, and leaves none of its own. |
| Text.StripEmptyIff | backend/services/rag_service.py:84 | `strip()` is empty exactly for whitespace-only text. |
| Text.Basename | backend/documents/models.py:91 | The basename has no slash, is a suffix of the path, and follows its last slash. |
| Text.Extension | backend/documents/models.py:97 | The extension is empty, or a suffix that starts with a dot and has no further dot and no slash. |
| Text.ExtensionOfNamed | backend/documents/models.py:97 | The extension of `stem.ext`, for a stem that does not start with a dot, is `.ext`. |
| Text.ExtensionOfDots | backend/documents/models.py:97 | A last component of dots before its last dot has no extension. |
| Text.Remove | backend/documents/models.py:97 | `replace('.', '')` leaves no dot and never lengthens the string. A string without a dot is unchanged, and a single other character is kept. |
| Text.RemoveAppend | backend/documents/models.py:97 | Removal works piecewise: removing from `a + b` is removing from `a` followed by removing from `b`. What remains keeps its order. |
| Text.RemoveKeepsOthers | backend/documents/models.py:97 | Characters other than the removed one are kept. |
| Text.LowerIdempotent | backend/accounts/models.py:47 | Lower-casing twice is lower-casing once. |
| Text.ToLower | backend/accounts/models.py:47 | An ASCII capital becomes the small letter at the same place in the alphabet. Every other character is unchanged. |
| Text.Lower | backend/accounts/models.py:47 | Each character of the lower-cased string is `ToLower` of the character at the same position, so the length is kept. |
| Text.JoinLength | backend/services/rag_service.py:58 | A join of n parts is as long as the parts plus n-1 separators. |
| Text.LastN | backend/services/rag_service.py:276 | `[-n:]` is the last min(n, length) items. |
| Text.Preview | backend/chatbots/models.py:162 | The preview is the string itself up to n characters. Otherwise it is the first n characters and `...`. |
| Text.NatToStringRoundTrip | backend/documents/models.py:8 | The decimal rendering of an id reads back as that id. |

`ChatViews.ChatEndpoint` states the following:

- A missing or inactive chatbot answers 500 with the 404 message and writes nothing.
- An empty stripped message answers 400 and writes nothing.
- A conversation id naming no conversation of this chatbot answers 500 and writes nothing.
- Otherwise (`Proceeds`), with no id or the id 0, a conversation is created under the next id. It belongs to the requester (or to no one) and its title is `ConversationTitle` of the stripped message. A sent id names the conversation answered, and the conversation table is unchanged.
- The user message gets the next id and holds the stripped message. The generation is `GenerationFor` with the chatbot, that message and the conversation's last four earlier messages.
- A failed generation answers 500 with the generation's error, keeps only the user message and keeps a new conversation (`ConverseOutcome`).
- A successful generation appends the user message and then the assistant message. The assistant message holds the generated text, the chunks used and the token count, and the answer holds both messages and the chunks used.

## Left out

- The chat model and the embedding service are parameters (`complete`, `embed`), because they are network services. So are `sqrt`, the clock (`now`) and the text splitter, because the splitter's algorithm belongs to another library. Only the emptiness check on the splitter's output is modelled.
- PDF and DOCX parsing and file reading are inputs (`FileSource`), because they are foreign libraries and I/O.
- Retrieval.Cosine: computed over exact reals with `sqrt` a parameter. Floating-point rounding is not modelled, and no bound on the score is claimed.
- Text.Lower: `Text.ToLower` lower-cases ASCII letters only. Python's `str.lower` also maps other Unicode letters.
- Accounts.Saved: inherits that restriction: an e-mail with non-ASCII capitals keeps them in the model.
- Documents.ValidName: `\w` is modelled, in `Documents.KeepNameChars` and its helpers, as the ASCII letters and digits and `_`. For a `str` pattern Python's `\w` also matches the other Unicode letters and digits, which the model drops.
- DocumentViews.StoredName: storage's `get_available_name` is not modelled. It appends a random suffix when the name is already taken, or when it is longer than the field's `max_length` of 100 (the default, since the `FileField` sets none), and then truncates the stem. The 255-character cap on uploaded names is not modelled either. A name that cleans to nothing raises `SuspiciousFileOperation` in Django; no accepted upload has such a name (`Documents.AcceptedNameIsStorable`).
- Text.IsDecimal: the decimal digits `\d` matches are those of Unicode 15.0. A Python built on another Unicode version may accept a slightly different set.
- Retrieval.ScopeChunks: chunks are taken in table (insertion) order. The queryset's order by document and then `chunk_index` expands, through the document's own ordering, to upload time, and timestamps are not modelled. Within one document the two orders agree in a consistent store (`DocumentViews.ListedChunksNumbered`).
- ChatViews.ChatEndpoint: the message is an optional string. A JSON `null` or a non-string `message` makes `.strip()` raise `AttributeError`, which the generic handler answers with 500. That path is not modelled.
- ChatViews.PostUserMessage: messages are ordered by creation, which the model takes to be insertion order. Ties in `created_at` are not modelled.
- Ingestion.ProcessDocument: requires the document to exist. In the code a missing document leaves `document` unbound in the `except` block, which raises a different error.
- The `except` branch of the upload view (backend/documents/views.py:55-66) is not modelled. `process_document` catches every exception itself, and the document was just created, so that branch is never taken.
- DRF's field-level checks beyond those modelled are left out: required fields, empty files, `max_length` on text fields, the `FileField`'s `max_length=100` check on the uploaded file's name (DRF answers 400 for a longer name, while `DocumentViews.UploadCheck` accepts it), and non-integer `conversation_id` strings, which are modelled as an optional integer. All of these are framework behaviour.
- Database.Db: ids come from one counter, `nextId`, shared by every table, so a new row's id is larger than every id in every table, and contracts that name an id as `old(db.nextId)` or one past it rely on that. Django numbers each table on its own, so of those statements only "the id is new in its table" carries over.
- `ConversationViewSet` create, update and delete (backend/chatbots/views.py:75-85) are left out as plain serializer round trips. Their one rule, the `title` default, is `Chatbots.NewConversation` with `Chatbots.DefaultConversationTitle`.
- `ConversationViewSet.add_message` and the `conversations` and `documents` listing actions of `ChatbotViewSet` are left out. They are plain serializer round trips with no rule of their own.
- The account views (JWT issuing and blacklisting), `validate_password`, the admin pages, URL routing and the frontend are left out, because they are foreign or outside the back end's logic.
- Timestamps (`created_at`, `updated_at`, `uploaded_at`) are not modelled. `processed_at` is the `now` parameter.
