// The knowledge-base controller (controllers/document.controller.js): listing, uploading,
// replacing, deleting and downloading a chatbot's documents. Cloudinary is a parameter
// that maps a folder to the uploaded file's secure URL, or to None when the upload fails;
// the reprocessing call to the Python service is ignored by every handler, so it is not
// modelled.
module DocumentController {
  import opened Common
  import opened Text
  import opened Auth
  import opened Store
  import opened StorageNames

  /** A file multer accepted: its original name and size. */
  datatype UploadedFile = UploadedFile(originalName: string, size: nat)

  /** `Uploads/${sanitizedName}+${chatbotId}`, the Cloudinary folder of a chatbot's documents. */
  function Folder(botName: string, chatbotId: string): (f: string)
    ensures StartsWith(f, "Uploads/")
  {
    "Uploads/" + FolderName(botName) + "+" + chatbotId
  }

  /** The chatbot with that id when the principal owns it (`findFirst({ where: { id, ownerId } })`). */
  function OwnedChatbot(t: Tables, id: int, ownerId: int): (b: Option<Chatbot>)
    ensures b.Some? <==> FindChatbot(t, id).Some? && FindChatbot(t, id).value.ownerId == ownerId
    ensures b.Some? ==> b == FindChatbot(t, id)
  {
    match FindChatbot(t, id)
    case None => None
    case Some(bot) => if bot.ownerId == ownerId then Some(bot) else None
  }

  function FindDocument(t: Tables, id: int): (d: Option<nat>)
    ensures d.Some? ==> d.value < |t.documents| && t.documents[d.value].id == id
    ensures d.None? <==> forall j :: 0 <= j < |t.documents| ==> t.documents[j].id != id
  {
    First(t.documents, DocumentWithId(id))
  }

  // ---------------------------------------------------------------- list

  /**
   * GET /documents?chatbotId= (behind auth). parseInt(·, 10) must not be NaN (0 passes);
   * only the owner may list, and a missing chatbot gets the same 403.
   */
  method GetDocumentsByChatbot(db: Database, principal: Claims, chatbotId: JsValue)
    returns (outcome: Outcome, docs: seq<Document>)
    ensures var id := ParseIntValue(chatbotId, false);
            && (id.None? ==> outcome == Reply(400))
            && (id.Some? && OwnedChatbot(db.tables, id.value, principal.id).None? ==> outcome == Reply(403))
            && (id.Some? && OwnedChatbot(db.tables, id.value, principal.id).Some? ==>
                  outcome == Reply(200) && docs == Where(db.tables.documents, DocumentOf(id.value)))
    ensures outcome == Reply(200) ==> forall k :: 0 <= k < |docs| ==> docs[k] in db.tables.documents
  {
    var id := ParseIntValue(chatbotId, false);
    if id.None? {
      return Reply(400), [];
    }
    if OwnedChatbot(db.tables, id.value, principal.id).None? {
      return Reply(403), [];
    }
    return Reply(200), Where(db.tables.documents, DocumentOf(id.value));
  }

  // ---------------------------------------------------------------- upload

  /** The row a successful upload creates. */
  function NewDocument(t: Tables, chatbotId: int, file: UploadedFile, url: string, now: int): Document
  {
    Document(t.nextDocumentId, chatbotId, file.originalName, FileType(file.originalName), file.size, url, now)
  }

  function WithDocument(t: Tables, d: Document): (r: Tables)
    ensures r.documents == t.documents + [d]
  {
    t.(documents := t.documents + [d], nextDocumentId := t.nextDocumentId + 1)
  }

  /** Adding a row changes the document count of its chatbot by one and of every other chatbot by nothing. */
  lemma AddingCountsOne(t: Tables, d: Document, chatbotId: int)
    ensures Count(WithDocument(t, d).documents, DocumentOf(chatbotId))
            == Count(t.documents, DocumentOf(chatbotId)) + (if d.chatbotId == chatbotId then 1 else 0)
  {
    WhereAppend(t.documents, d, DocumentOf(chatbotId));
  }

  /**
   * POST /documents (behind auth), with chatbotId in the multipart body and one file.
   * Here parseInt runs without a radix. A failed upload throws, which the handler answers
   * with 500. The reported documentsCount is the chatbot's count before the upload plus one.
   */
  method UploadDocument(db: Database, principal: Claims, chatbotId: JsValue, file: Option<UploadedFile>,
                        upload: string -> Option<string>, now: int)
    returns (outcome: Outcome, documentsCount: nat)
    modifies db
    ensures var t := old(db.tables);
            var id := ParseIntValue(chatbotId, true);
            && (!JsTruthy(chatbotId) || id.None? ==> outcome == Reply(400))
            && (JsTruthy(chatbotId) && id.Some? ==>
                  var bot := OwnedChatbot(t, id.value, principal.id);
                  if bot.None? then outcome == Reply(403)
                  else if file.None? then outcome == Reply(400)
                  else
                    var url := upload(Folder(bot.value.name, JsString(chatbotId)));
                    if url.None? then outcome == Reply(500)
                    else outcome == Reply(201)
                         && db.tables == WithDocument(t, NewDocument(t, id.value, file.value, url.value, now))
                         && documentsCount == Count(t.documents, DocumentOf(id.value)) + 1)
    ensures outcome != Reply(201) ==> db.tables == old(db.tables)
  {
    var id := ParseIntValue(chatbotId, true);
    if !JsTruthy(chatbotId) || id.None? {
      return Reply(400), 0;
    }
    var t := db.tables;
    var bot := OwnedChatbot(t, id.value, principal.id);
    if bot.None? {
      return Reply(403), 0;
    }
    if file.None? {
      return Reply(400), 0;
    }
    var url := upload(Folder(bot.value.name, JsString(chatbotId)));
    if url.None? {
      return Reply(500), 0;
    }
    documentsCount := Count(t.documents, DocumentOf(id.value)) + 1;
    db.tables := WithDocument(t, NewDocument(t, id.value, file.value, url.value, now));
    outcome := Reply(201);
  }

  /** The count an upload reports is the chatbot's count after it. */
  lemma UploadReportsNewCount(t: Tables, chatbotId: int, file: UploadedFile, url: string, now: int)
    ensures Count(WithDocument(t, NewDocument(t, chatbotId, file, url, now)).documents, DocumentOf(chatbotId))
            == Count(t.documents, DocumentOf(chatbotId)) + 1
  {
    AddingCountsOne(t, NewDocument(t, chatbotId, file, url, now), chatbotId);
  }

  // ---------------------------------------------------------------- replace

  /** The replaced row: new name, type, size, URL and time; the same id and chatbot. */
  function Replaced(d: Document, file: UploadedFile, url: string, now: int): (r: Document)
    ensures r.id == d.id && r.chatbotId == d.chatbotId
  {
    d.(fileName := file.originalName, fileType := FileType(file.originalName), size := file.size, url := url,
       createdAt := now)
  }

  /** Replacing a row keeps every chatbot's document count. */
  lemma ReplacingKeepsCounts(rows: seq<Document>, i: nat, file: UploadedFile, url: string, now: int, chatbotId: int)
    requires i < |rows|
    ensures Count(rows[i := Replaced(rows[i], file, url, now)], DocumentOf(chatbotId)) == Count(rows, DocumentOf(chatbotId))
  {
    CountUpdate(rows, i, Replaced(rows[i], file, url, now), DocumentOf(chatbotId));
  }

  /** The Cloudinary public id destroyed before the new upload. */
  function DestroyedId(bot: Chatbot, d: Document): string
  {
    Folder(bot.name, IntToDecimal(d.chatbotId)) + "/" + PublicId(d.url)
  }

  /**
   * PUT /documents/:id (behind auth), with one file. The file check comes first; a
   * missing document and another owner's document both get 403. The old file is destroyed
   * before the new one is uploaded, so a failed upload (500) leaves the row pointing at a
   * destroyed file. An id parseInt reads as NaN makes the lookup throw (500).
   */
  method ReplaceDocument(db: Database, principal: Claims, idParam: string, file: Option<UploadedFile>,
                         upload: string -> Option<string>, now: int)
    returns (outcome: Outcome, destroyed: Option<string>, documentsCount: nat)
    modifies db
    ensures var t := old(db.tables);
            var id := ParseInt(idParam, true);
            && (file.None? ==> outcome == Reply(400) && destroyed.None?)
            && (file.Some? && id.None? ==> outcome == Reply(500) && destroyed.None?)
            && (file.Some? && id.Some? ==>
                  match FindDocument(t, id.value)
                  case None => outcome == Reply(403) && destroyed.None?
                  case Some(i) =>
                    var d := t.documents[i];
                    match FindChatbot(t, d.chatbotId)
                    case None => outcome == Reply(500) && destroyed.None?
                    case Some(bot) =>
                      if bot.ownerId != principal.id then outcome == Reply(403) && destroyed.None?
                      else
                        && destroyed == Some(DestroyedId(bot, d))
                        && var url := upload(Folder(bot.name, IntToDecimal(d.chatbotId)));
                        if url.None? then outcome == Reply(500)
                        else outcome == Reply(200)
                             && db.tables == t.(documents := t.documents[i := Replaced(d, file.value, url.value, now)])
                             && documentsCount == Count(t.documents, DocumentOf(d.chatbotId)))
    ensures outcome != Reply(200) ==> db.tables == old(db.tables)
  {
    if file.None? {
      return Reply(400), None, 0;
    }
    var id := ParseInt(idParam, true);
    if id.None? {
      return Reply(500), None, 0;
    }
    var t := db.tables;
    var i := FindDocument(t, id.value);
    if i.None? {
      return Reply(403), None, 0;
    }
    var d := t.documents[i.value];
    var bot := FindChatbot(t, d.chatbotId);
    if bot.None? {
      return Reply(500), None, 0;
    }
    if bot.value.ownerId != principal.id {
      return Reply(403), None, 0;
    }
    destroyed := Some(DestroyedId(bot.value, d));
    var url := upload(Folder(bot.value.name, IntToDecimal(d.chatbotId)));
    if url.None? {
      return Reply(500), destroyed, 0;
    }
    documentsCount := Count(t.documents, DocumentOf(d.chatbotId));
    db.tables := t.(documents := t.documents[i.value := Replaced(d, file.value, url.value, now)]);
    outcome := Reply(200);
  }

  /** The file a replacement destroys is the one the row's URL names, in the chatbot's folder. */
  lemma DestroysStoredFile(bot: Chatbot, d: Document, host: string, publicId: string, ext: string)
    requires '/' !in publicId && '.' !in publicId && '/' !in ext
    requires d.url == host + "/" + publicId + "." + ext
    ensures DestroyedId(bot, d) == Folder(bot.name, IntToDecimal(d.chatbotId)) + "/" + publicId
  {
    PublicIdOfUrl(host, publicId, ext);
  }

  // ---------------------------------------------------------------- delete

  /** An error caught by deleteDocument: its message and Prisma's code ("" when none). */
  datatype Failure = Failure(message: string, code: string)

  const NOT_FOUND_MESSAGE: string := "Document not found"
  const UNAUTHORIZED: string := "Unauthorized"
  const UNAUTHORIZED_MESSAGE: string := UNAUTHORIZED + ": You do not have permission to delete this document"

  /** The status deleteDocument's catch block answers with. */
  function DeleteErrorStatus(e: Failure): (status: int)
    ensures Includes(e.message, UNAUTHORIZED) || Includes(e.message, NOT_FOUND_MESSAGE) ==> status == 403
    ensures !(Includes(e.message, UNAUTHORIZED) || Includes(e.message, NOT_FOUND_MESSAGE)) ==>
              status == (if e.code == "P2025" then 404 else 500)
  {
    if Includes(e.message, UNAUTHORIZED) || Includes(e.message, NOT_FOUND_MESSAGE) then 403
    else if e.code == "P2025" then 404
    else 500
  }

  /** The two errors the transaction throws itself both become 403. */
  lemma OwnErrorsAreForbidden()
    ensures DeleteErrorStatus(Failure(NOT_FOUND_MESSAGE, "")) == 403
    ensures DeleteErrorStatus(Failure(UNAUTHORIZED_MESSAGE, "")) == 403
  {
    assert OccursAt(NOT_FOUND_MESSAGE, NOT_FOUND_MESSAGE, 0);
    assert UNAUTHORIZED_MESSAGE[0..|UNAUTHORIZED|] == UNAUTHORIZED;
    assert OccursAt(UNAUTHORIZED_MESSAGE, UNAUTHORIZED, 0);
  }

  /** The rows without the one at `i`. */
  function RemoveAt<T>(rows: seq<T>, i: nat): (r: seq<T>)
    requires i < |rows|
    ensures |r| == |rows| - 1
  {
    rows[..i] + rows[i + 1..]
  }

  /** Removing one row lowers its chatbot's document count by one and leaves the other chatbots' counts. */
  lemma RemovingCountsOne(rows: seq<Document>, i: nat, chatbotId: int)
    requires i < |rows|
    ensures Count(RemoveAt(rows, i), DocumentOf(chatbotId)) + (if rows[i].chatbotId == chatbotId then 1 else 0)
            == Count(rows, DocumentOf(chatbotId))
  {
    assert rows == rows[..i] + [rows[i]] + rows[i + 1..];
    WhereConcat(rows[..i] + [rows[i]], rows[i + 1..], DocumentOf(chatbotId));
    WhereConcat(rows[..i], rows[i + 1..], DocumentOf(chatbotId));
    WhereAppend(rows[..i], rows[i], DocumentOf(chatbotId));
  }

  /**
   * DELETE /documents/:id (behind auth). Inside the transaction a missing document and a
   * caller who is neither the chatbot's owner nor ADMIN throw the two messages that the
   * catch block turns into 403; on success exactly that row is removed and the reply is 204.
   * An id parseInt reads as NaN, or a document whose chatbot row is missing, throws an
   * error whose message matches neither text, so the reply is 500.
   */
  method DeleteDocument(db: Database, principal: Claims, idParam: string) returns (outcome: Outcome)
    modifies db
    ensures var t := old(db.tables);
            var id := ParseInt(idParam, true);
            && (id.None? ==> outcome == Reply(500))
            && (id.Some? ==>
                  match FindDocument(t, id.value)
                  case None => outcome == Reply(DeleteErrorStatus(Failure(NOT_FOUND_MESSAGE, "")))
                  case Some(i) =>
                    match FindChatbot(t, t.documents[i].chatbotId)
                    case None => outcome == Reply(500)
                    case Some(bot) =>
                      if bot.ownerId != principal.id && principal.role != ADMIN
                      then outcome == Reply(DeleteErrorStatus(Failure(UNAUTHORIZED_MESSAGE, "")))
                      else outcome == Reply(204) && db.tables == t.(documents := RemoveAt(t.documents, i)))
    ensures outcome != Reply(204) ==> db.tables == old(db.tables)
  {
    var id := ParseInt(idParam, true);
    if id.None? {
      return Reply(500);
    }
    var t := db.tables;
    var i := FindDocument(t, id.value);
    if i.None? {
      return Reply(DeleteErrorStatus(Failure(NOT_FOUND_MESSAGE, "")));
    }
    var bot := FindChatbot(t, t.documents[i.value].chatbotId);
    if bot.None? {
      return Reply(500);
    }
    if bot.value.ownerId != principal.id && principal.role != ADMIN {
      return Reply(DeleteErrorStatus(Failure(UNAUTHORIZED_MESSAGE, "")));
    }
    db.tables := t.(documents := RemoveAt(t.documents, i.value));
    outcome := Reply(204);
  }

  // ---------------------------------------------------------------- download

  /**
   * GET /documents/:id/download (behind auth): the URL and the chatbot's document count,
   * for the chatbot's owner only (no ADMIN exception). Changes nothing.
   */
  method DownloadDocument(db: Database, principal: Claims, idParam: string)
    returns (outcome: Outcome, url: string, documentsCount: nat)
    ensures var t := db.tables;
            var id := ParseInt(idParam, true);
            && (id.None? ==> outcome == Reply(500))
            && (id.Some? ==>
                  match FindDocument(t, id.value)
                  case None => outcome == Reply(403)
                  case Some(i) =>
                    match FindChatbot(t, t.documents[i].chatbotId)
                    case None => outcome == Reply(500)
                    case Some(bot) =>
                      if bot.ownerId != principal.id then outcome == Reply(403)
                      else outcome == Reply(200) && url == t.documents[i].url
                           && documentsCount == Count(t.documents, DocumentOf(bot.id)) && documentsCount > 0)
  {
    var id := ParseInt(idParam, true);
    if id.None? {
      return Reply(500), "", 0;
    }
    var t := db.tables;
    var i := FindDocument(t, id.value);
    if i.None? {
      return Reply(403), "", 0;
    }
    var d := t.documents[i.value];
    var bot := FindChatbot(t, d.chatbotId);
    if bot.None? {
      return Reply(500), "", 0;
    }
    if bot.value.ownerId != principal.id {
      return Reply(403), "", 0;
    }
    assert d in Where(t.documents, DocumentOf(bot.value.id));
    return Reply(200), d.url, Count(t.documents, DocumentOf(bot.value.id));
  }
}
