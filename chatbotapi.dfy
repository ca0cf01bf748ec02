// The chatbot controller (controllers/chatbot.controller.js): the public chat endpoints
// getChatbot, sendMessage, getConversations and endSession, chatbot creation and update,
// and the two statistics endpoints. Each handler runs its guards in the source's order and
// then writes what the source writes. The AI service, Cloudinary and the QR encoder are
// parameters: their results are given, not computed.
module ChatbotController {
  import opened Common
  import opened Text
  import opened Auth
  import opened Sorting
  import opened Store
  import opened StorageNames
  import opened Stats

  const NO_RESPONSE: string := "No response from AI."
  const AI_FAILURE: string := "Sorry, I encountered an error while processing your request."
  const DEFAULT_COLOR: string := "#3b82f6"

  /** `parseInt(param, 10)` kept only when it is neither NaN nor 0 (`!id || isNaN(id)` gives 400). */
  function RouteId(param: JsValue): (id: Option<int>)
    ensures id.Some? <==> TruthyId(ParseIntValue(param, false))
    ensures id.Some? ==> id.value != 0 && id == ParseIntValue(param, false)
  {
    var id := ParseIntValue(param, false);
    if TruthyId(id) then id else None
  }

  /** A chatbot as the handlers return it: `logo` and `primaryColor` with their fallbacks. */
  datatype BotView = BotView(id: int, name: string, description: Option<string>, logo: string,
                             primaryColor: string, isActive: bool, documentsCount: nat)

  function ViewOf(bot: Chatbot, documentsCount: nat): (v: BotView)
    ensures v.primaryColor != ""
    ensures Present(bot.primaryColor) ==> v.primaryColor == bot.primaryColor.value
    ensures v.id == bot.id && v.logo == bot.logoUrl && v.documentsCount == documentsCount
  {
    BotView(bot.id, bot.name, bot.description, bot.logoUrl,
            if Present(bot.primaryColor) then bot.primaryColor.value else DEFAULT_COLOR,
            bot.isActive, documentsCount)
  }

  // ---------------------------------------------------------------- sendMessage

  /**
   * The stored answer for the AI service's reply: the reply itself, the fixed text for an
   * empty reply, and the apology when the call failed (None). It is never empty.
   */
  function AnswerFor(reply: Option<string>): (a: string)
    ensures a != ""
    ensures reply.Some? && reply.value != "" ==> a == reply.value
    ensures reply.Some? && reply.value == "" ==> a == NO_RESPONSE
    ensures reply.None? ==> a == AI_FAILURE
  {
    match reply
    case None => AI_FAILURE
    case Some(r) => if r != "" then r else NO_RESPONSE
  }

  /** Who sends the message: the body's userId, else the principal's id, else a new anonymous user. */
  datatype Resolution = Resolved(id: int, created: bool) | UnknownUser | BadUserId

  function Resolve(t: Tables, bodyUserId: JsValue, principal: Option<Claims>): (r: Resolution)
    ensures r.Resolved? && r.created <==> !JsTruthy(bodyUserId) && !(principal.Some? && principal.value.id != 0)
    ensures r.Resolved? && r.created ==> r.id == t.nextUserId
    ensures r.Resolved? && !r.created ==>
              FindUser(t, r.id).Some? && (if JsTruthy(bodyUserId) then bodyUserId == Num(r.id) else r.id == principal.value.id)
    ensures r == UnknownUser <==> (if JsTruthy(bodyUserId) then bodyUserId.Num? && FindUser(t, bodyUserId.n).None?
                                   else principal.Some? && principal.value.id != 0 && FindUser(t, principal.value.id).None?)
    ensures r == BadUserId <==> JsTruthy(bodyUserId) && !bodyUserId.Num?
  {
    if JsTruthy(bodyUserId) then
      if !bodyUserId.Num? then BadUserId
      else if FindUser(t, bodyUserId.n).None? then UnknownUser
      else Resolved(bodyUserId.n, false)
    else if principal.Some? && principal.value.id != 0 then
      if FindUser(t, principal.value.id).None? then UnknownUser else Resolved(principal.value.id, false)
    else Resolved(t.nextUserId, true)
  }

  /**
   * The writes of one exchange after the user is known: the pair's session is opened
   * unless one is open, and one conversation is appended.
   */
  function Exchange(t: Tables, userId: int, chatbotId: int, question: string, answer: string, now: int): (r: Tables)
    ensures r.conversations == t.conversations + [Conversation(t.nextConversationId, userId, chatbotId, question, answer, now)]
    ensures r.sessions == EnsureOpen(t.sessions, userId, chatbotId, now, t.nextSessionId)
    ensures HasOpenSession(r.sessions, userId, chatbotId)
    ensures r.users == t.users && r.chatbots == t.chatbots && r.documents == t.documents && r.qrScans == t.qrScans
  {
    var wasOpen := HasOpenSession(t.sessions, userId, chatbotId);
    t.(sessions := EnsureOpen(t.sessions, userId, chatbotId, now, t.nextSessionId),
       nextSessionId := if wasOpen then t.nextSessionId else t.nextSessionId + 1,
       conversations := t.conversations + [Conversation(t.nextConversationId, userId, chatbotId, question, answer, now)],
       nextConversationId := t.nextConversationId + 1)
  }

  /**
   * POST /chatbots/:id/message. `reply` is the AI service's answer field (None when the call
   * fails); `now` is the clock. Every rejection happens before any write.
   */
  method SendMessage(db: Database, idParam: string, content: JsValue, bodyUserId: JsValue,
                     principal: Option<Claims>, reply: Option<string>, now: int)
    returns (outcome: Outcome, answer: string, userId: int)
    modifies db
    ensures var t := old(db.tables);
            var cid := RouteId(Str(idParam));
            var r := Resolve(t, bodyUserId, principal);
            && (cid.None? ==> outcome == Reply(400))
            && (cid.Some? && FindActiveChatbot(t, cid.value).None? ==> outcome == Reply(404))
            && (cid.Some? && FindActiveChatbot(t, cid.value).Some? ==>
                  if !(content.Str? && content.s != "") then outcome == Reply(400)
                  else if r == BadUserId then outcome == Forwarded
                  else if r == UnknownUser then outcome == Reply(404)
                  else outcome == Reply(200))
    ensures outcome != Reply(200) ==> db.tables == old(db.tables)
    ensures outcome == Reply(200) ==>
              var t := old(db.tables);
              var r := Resolve(t, bodyUserId, principal);
              var t1 := if r.created then WithAnonymousUser(t, now) else t;
              && r.Resolved? && userId == r.id && answer == AnswerFor(reply)
              && db.tables == Exchange(t1, userId, RouteId(Str(idParam)).value, content.s, answer, now)
  {
    var t := db.tables;
    var cid := RouteId(Str(idParam));
    if cid.None? {
      return Reply(400), "", 0;
    }
    if FindActiveChatbot(t, cid.value).None? {
      return Reply(404), "", 0;
    }
    if !(content.Str? && content.s != "") {
      return Reply(400), "", 0;
    }
    var r := Resolve(t, bodyUserId, principal);
    if r == BadUserId {
      return Forwarded, "", 0;
    }
    if r == UnknownUser {
      return Reply(404), "", 0;
    }
    if r.created {
      db.tables := WithAnonymousUser(db.tables, now);
    }
    userId := r.id;
    answer := AnswerFor(reply);
    db.tables := Exchange(db.tables, userId, cid.value, content.s, answer, now);
    outcome := Reply(200);
  }

  /** Exactly one conversation per successful message, and the pair is left with an open session. */
  lemma ExchangeAppendsOne(t: Tables, userId: int, chatbotId: int, question: string, answer: string, now: int)
    ensures var r := Exchange(t, userId, chatbotId, question, answer, now);
            |r.conversations| == |t.conversations| + 1
            && Count(r.conversations, PairRow(userId, chatbotId)) == Count(t.conversations, PairRow(userId, chatbotId)) + 1
            && Count(r.sessions, OpenFor(userId, chatbotId)) == (if HasOpenSession(t.sessions, userId, chatbotId) then Count(t.sessions, OpenFor(userId, chatbotId)) else 1)
  {
    var x := Conversation(t.nextConversationId, userId, chatbotId, question, answer, now);
    WhereAppend(t.conversations, x, PairRow(userId, chatbotId));
    if !HasOpenSession(t.sessions, userId, chatbotId) {
      EnsureOpenCreatesOne(t.sessions, userId, chatbotId, now, t.nextSessionId);
    }
  }

  // ---------------------------------------------------------------- getConversations

  function CreatedAt(c: Conversation): int { c.createdAt }

  /** One pair's conversations, `orderBy: { createdAt: 'asc' }`, ties in table order. */
  function History(t: Tables, userId: int, chatbotId: int): (rows: seq<Conversation>)
    ensures Sorted(rows, CreatedAt)
    ensures multiset(rows) == multiset(Where(t.conversations, PairRow(userId, chatbotId)))
  {
    SortBy(Where(t.conversations, PairRow(userId, chatbotId)), CreatedAt)
  }

  /**
   * A message stamped no earlier than the pair's previous ones extends the transcript at the
   * end and leaves the earlier entries as they were.
   */
  lemma HistoryAppends(t: Tables, userId: int, chatbotId: int, question: string, answer: string, now: int)
    requires forall i :: 0 <= i < |t.conversations| ==> t.conversations[i].createdAt <= now
    ensures var r := Exchange(t, userId, chatbotId, question, answer, now);
            History(r, userId, chatbotId)
              == History(t, userId, chatbotId) + [Conversation(t.nextConversationId, userId, chatbotId, question, answer, now)]
  {
    var x := Conversation(t.nextConversationId, userId, chatbotId, question, answer, now);
    var rows := Where(t.conversations, PairRow(userId, chatbotId));
    WhereAppend(t.conversations, x, PairRow(userId, chatbotId));
    SortAppendMax(rows, x, CreatedAt);
  }

  /** GET /chatbots/:id/conversations?userId=: one pair's transcript. Changes nothing. */
  method GetConversations(db: Database, idParam: string, userIdQuery: JsValue)
    returns (outcome: Outcome, rows: seq<Conversation>)
    ensures var cid := RouteId(Str(idParam));
            var uid := RouteId(userIdQuery);
            && (cid.None? || uid.None? ==> outcome == Reply(400))
            && (cid.Some? && uid.Some? ==>
                  if FindActiveChatbot(db.tables, cid.value).None? then outcome == Reply(404)
                  else outcome == Reply(200) && rows == History(db.tables, uid.value, cid.value))
  {
    var cid := RouteId(Str(idParam));
    var uid := RouteId(userIdQuery);
    if cid.None? || uid.None? {
      return Reply(400), [];
    }
    if FindActiveChatbot(db.tables, cid.value).None? {
      return Reply(404), [];
    }
    return Reply(200), History(db.tables, uid.value, cid.value);
  }

  // ---------------------------------------------------------------- endSession

  /** The pair's sessions after closing its first open one, or None when none is open. */
  function Closed(sessions: seq<Session>, userId: int, chatbotId: int, now: int): (r: Option<seq<Session>>)
    ensures r.None? <==> !HasOpenSession(sessions, userId, chatbotId)
    ensures r.Some? ==>
              |r.value| == |sessions| && Count(r.value, OpenFor(userId, chatbotId)) + 1 == Count(sessions, OpenFor(userId, chatbotId))
  {
    match First(sessions, OpenFor(userId, chatbotId))
    case None => None
    case Some(i) =>
      CloseCountsDown(sessions, userId, chatbotId, now);
      Some(Close(sessions, i, now))
  }

  /** Closing changes exactly one row: the other sessions are kept as they were. */
  lemma ClosedTouchesOne(sessions: seq<Session>, userId: int, chatbotId: int, now: int)
    requires HasOpenSession(sessions, userId, chatbotId)
    ensures var r := Closed(sessions, userId, chatbotId, now).value;
            exists i :: 0 <= i < |sessions| && OpenFor(userId, chatbotId)(sessions[i])
                        && r == sessions[i := sessions[i].(endedAt := Some(now))]
  {
    var i := First(sessions, OpenFor(userId, chatbotId)).value;
    assert Closed(sessions, userId, chatbotId, now).value == sessions[i := sessions[i].(endedAt := Some(now))];
  }

  /**
   * POST /chatbots/end-session with `{ chatbotId, userId }` in the body. A falsy field gives
   * 400; a field that parseInt reads as NaN makes the query throw.
   */
  method EndSession(db: Database, chatbotId: JsValue, userId: JsValue, now: int) returns (outcome: Outcome)
    modifies db
    ensures var t := old(db.tables);
            var cid := ParseIntValue(chatbotId, false);
            var uid := ParseIntValue(userId, false);
            && (!JsTruthy(chatbotId) || !JsTruthy(userId) ==> outcome == Reply(400))
            && (JsTruthy(chatbotId) && JsTruthy(userId) ==>
                  if cid.None? || uid.None? then outcome == Forwarded
                  else if !HasOpenSession(t.sessions, uid.value, cid.value) then outcome == Reply(404)
                  else outcome == Reply(200)
                       && db.tables == t.(sessions := Closed(t.sessions, uid.value, cid.value, now).value))
    ensures outcome != Reply(200) ==> db.tables == old(db.tables)
  {
    if !JsTruthy(chatbotId) || !JsTruthy(userId) {
      return Reply(400);
    }
    var cid := ParseIntValue(chatbotId, false);
    var uid := ParseIntValue(userId, false);
    if cid.None? || uid.None? {
      return Forwarded;
    }
    var closed := Closed(db.tables.sessions, uid.value, cid.value, now);
    if closed.None? {
      return Reply(404);
    }
    db.tables := db.tables.(sessions := closed.value);
    outcome := Reply(200);
  }

  // ---------------------------------------------------------------- getChatbot

  /** The scan logged by getChatbot. */
  function WithScan(t: Tables, chatbotId: int, userId: int, now: int): (r: Tables)
    ensures |r.qrScans| == |t.qrScans| + 1 && r.qrScans[..|t.qrScans|] == t.qrScans
    ensures r.qrScans[|t.qrScans|] == QRScan(t.nextScanId, chatbotId, userId, now)
  {
    var r := t.(qrScans := t.qrScans + [QRScan(t.nextScanId, chatbotId, userId, now)], nextScanId := t.nextScanId + 1);
    assert r.qrScans[..|t.qrScans|] == t.qrScans;
    r
  }

  /**
   * GET /chatbots/:id, the public page. Every successful fetch logs one scan, and a fetch
   * without a principal (the route has no auth middleware) also creates an anonymous user.
   */
  method GetChatbot(db: Database, idParam: string, principal: Option<Claims>, now: int)
    returns (outcome: Outcome, userId: int, view: Option<BotView>)
    modifies db
    ensures var t := old(db.tables);
            var cid := RouteId(Str(idParam));
            && (cid.None? ==> outcome == Reply(400))
            && (cid.Some? && FindActiveChatbot(t, cid.value).None? ==> outcome == Reply(404))
            && (outcome == Reply(200) <==> cid.Some? && FindActiveChatbot(t, cid.value).Some?)
    ensures outcome != Reply(200) ==> db.tables == old(db.tables) && view.None?
    ensures outcome == Reply(200) ==>
              var t := old(db.tables);
              var cid := RouteId(Str(idParam)).value;
              var bot := FindActiveChatbot(t, cid).value;
              && userId == (if principal.Some? then principal.value.id else t.nextUserId)
              && db.tables == WithScan(if principal.Some? then t else WithAnonymousUser(t, now), cid, userId, now)
              && view == Some(ViewOf(bot, Count(t.documents, DocumentOf(cid))))
  {
    var cid := RouteId(Str(idParam));
    if cid.None? {
      return Reply(400), 0, None;
    }
    var bot := FindActiveChatbot(db.tables, cid.value);
    if bot.None? {
      return Reply(404), 0, None;
    }
    var documentsCount := Count(db.tables.documents, DocumentOf(cid.value));
    if principal.Some? {
      userId := principal.value.id;
    } else {
      userId := db.tables.nextUserId;
      db.tables := WithAnonymousUser(db.tables, now);
    }
    db.tables := WithScan(db.tables, cid.value, userId, now);
    outcome := Reply(200);
    view := Some(ViewOf(bot.value, documentsCount));
  }

  // ---------------------------------------------------------------- create and update

  /** A logo as multer and Cloudinary deliver it. */
  datatype Upload = NoFile | Uploaded(url: string) | UploadFailed

  /** An uploaded document: its original name, its size and Cloudinary's secure_url (None when the upload fails). */
  datatype IncomingDocument = IncomingDocument(originalName: string, size: nat, upload: Option<string>)

  predicate AllUploaded(docs: seq<IncomingDocument>)
  {
    forall k :: 0 <= k < |docs| ==> docs[k].upload.Some?
  }

  /** The document rows created for uploaded files, with consecutive ids from `firstId`. */
  function NewDocuments(docs: seq<IncomingDocument>, chatbotId: int, firstId: int, now: int): (r: seq<Document>)
    requires AllUploaded(docs)
    ensures |r| == |docs|
    ensures forall k :: 0 <= k < |docs| ==>
              r[k] == Document(firstId + k, chatbotId, docs[k].originalName, FileType(docs[k].originalName),
                               docs[k].size, docs[k].upload.value, now)
  {
    if |docs| == 0 then []
    else
      [Document(firstId, chatbotId, docs[0].originalName, FileType(docs[0].originalName), docs[0].size,
                docs[0].upload.value, now)]
      + NewDocuments(docs[1..], chatbotId, firstId + 1, now)
  }

  function WithDocuments(t: Tables, docs: seq<IncomingDocument>, chatbotId: int, now: int): (r: Tables)
    requires AllUploaded(docs)
    ensures Count(r.documents, DocumentOf(chatbotId)) == Count(t.documents, DocumentOf(chatbotId)) + |docs|
  {
    var added := NewDocuments(docs, chatbotId, t.nextDocumentId, now);
    AllOfChatbot(added, chatbotId);
    WhereConcat(t.documents, added, DocumentOf(chatbotId));
    t.(documents := t.documents + added, nextDocumentId := t.nextDocumentId + |docs|)
  }

  lemma {:induction false} AllOfChatbot(rows: seq<Document>, chatbotId: int)
    requires forall k :: 0 <= k < |rows| ==> rows[k].chatbotId == chatbotId
    ensures Where(rows, DocumentOf(chatbotId)) == rows
  {
    if |rows| > 0 {
      var init := rows[..|rows| - 1];
      var x := rows[|rows| - 1];
      AllOfChatbot(init, chatbotId);
      assert rows == init + [x];
      WhereAppend(init, x, DocumentOf(chatbotId));
    }
  }

  /** The row createChatbot inserts first: active, owned by the principal, without a QR code yet. */
  function NewChatbot(t: Tables, ownerId: int, name: string, description: Option<string>,
                      primaryColor: Option<string>, logoUrl: string): (bot: Chatbot)
    ensures bot.id == t.nextChatbotId && bot.name == name
    ensures bot.isActive && bot.ownerId == ownerId && bot.qrUrl.None? && bot.logoUrl == logoUrl
  {
    Chatbot(t.nextChatbotId, name, description, logoUrl, primaryColor, true, ownerId, None)
  }

  function Inserted(t: Tables, bot: Chatbot): (r: Tables)
    ensures r.chatbots == t.chatbots + [bot]
    ensures r.users == t.users && r.documents == t.documents && r.conversations == t.conversations
  {
    t.(chatbots := t.chatbots + [bot], nextChatbotId := bot.id + 1)
  }

  /** The stored logo: the uploaded file's URL, else the body's logoUrl, else "". */
  function CreatedLogo(logo: Upload, logoUrl: Option<string>): string
  {
    if logo.Uploaded? then logo.url else if Present(logoUrl) then logoUrl.value else ""
  }

  /** Every document refers to a chatbot id already handed out. */
  predicate DocumentsReferToChatbots(t: Tables)
  {
    forall k :: 0 <= k < |t.documents| ==> t.documents[k].chatbotId < t.nextChatbotId
  }

  /** A chatbot id not yet handed out has no documents, so createChatbot always reports 0. */
  lemma FreshChatbotHasNoDocuments(t: Tables)
    requires DocumentsReferToChatbots(t)
    ensures Count(t.documents, DocumentOf(t.nextChatbotId)) == 0
  {
    NoneMatch(t.documents, DocumentOf(t.nextChatbotId));
  }

  /**
   * POST /chatbots (behind auth). The logo upload runs before the row is created; document
   * uploads run after it, so a failed document upload leaves the new chatbot without
   * documents and without a QR code. The response's documentsCount is read in the same
   * transaction before the document rows are created, so it counts only documents that
   * already referred to the new id (none, by FreshChatbotHasNoDocuments).
   */
  method CreateChatbot(db: Database, principal: Claims, name: Option<string>, description: Option<string>,
                       primaryColor: Option<string>, logoUrl: Option<string>, logo: Upload,
                       docs: seq<IncomingDocument>, qrCode: string -> string, baseUrl: string, now: int)
    returns (outcome: Outcome, view: Option<BotView>)
    modifies db
    ensures !Present(name) ==> outcome == Reply(400) && db.tables == old(db.tables)
    ensures Present(name) && logo.UploadFailed? ==> outcome == Forwarded && db.tables == old(db.tables)
    ensures Present(name) && !logo.UploadFailed? && !AllUploaded(docs) ==>
              outcome == Forwarded
              && db.tables == Inserted(old(db.tables), NewChatbot(old(db.tables), principal.id, name.value, description,
                                                                  primaryColor, CreatedLogo(logo, logoUrl)))
    ensures Present(name) && !logo.UploadFailed? && AllUploaded(docs) ==>
              var t := old(db.tables);
              var bot := NewChatbot(t, principal.id, name.value, description, primaryColor, CreatedLogo(logo, logoUrl));
              var finished := bot.(qrUrl := Some(qrCode(baseUrl + "/c/" + IntToDecimal(bot.id))));
              && outcome == Reply(201)
              && db.tables == WithDocuments(Inserted(t, finished), docs, bot.id, now)
              && view == Some(ViewOf(finished, Count(t.documents, DocumentOf(bot.id))))
  {
    if !Present(name) {
      return Reply(400), None;
    }
    if logo.UploadFailed? {
      return Forwarded, None;
    }
    var t := db.tables;
    var bot := NewChatbot(t, principal.id, name.value, description, primaryColor, CreatedLogo(logo, logoUrl));
    db.tables := Inserted(t, bot);
    if !AllUploaded(docs) {
      return Forwarded, None;
    }
    var finished := bot.(qrUrl := Some(qrCode(baseUrl + "/c/" + IntToDecimal(bot.id))));
    var documentsCount := Count(db.tables.documents, DocumentOf(bot.id));
    db.tables := WithDocuments(Inserted(t, finished), docs, bot.id, now);
    outcome := Reply(201);
    view := Some(ViewOf(finished, documentsCount));
  }

  /** The fields of the update body; None is undefined. */
  datatype UpdateBody = UpdateBody(name: Option<string>, description: Option<string>, primaryColor: Option<string>,
                                   logoUrl: Option<string>, isActive: JsValue)

  /** `isActive === 'true' || isActive === true`. */
  predicate IsActiveFlag(v: JsValue)
  {
    v == Str("true") || v == Bool(true)
  }

  /** The logo after an update: the uploaded one, else the body's, else the stored one, else "". */
  function NewLogoUrl(bot: Chatbot, body: UpdateBody, uploaded: Option<string>): (url: string)
    ensures uploaded.Some? ==> url == uploaded.value
    ensures uploaded.None? && Present(body.logoUrl) ==> url == body.logoUrl.value
    ensures uploaded.None? && !Present(body.logoUrl) ==> url == bot.logoUrl
  {
    if uploaded.Some? then uploaded.value
    else if Present(body.logoUrl) then body.logoUrl.value
    else if bot.logoUrl != "" then bot.logoUrl
    else ""
  }

  /** `updateData` merged onto the stored row. */
  function Merged(bot: Chatbot, body: UpdateBody, logoUrl: string): Chatbot
  {
    bot.(name := if Present(body.name) then body.name.value else bot.name,
         description := if body.description.Some? then body.description else bot.description,
         logoUrl := logoUrl,
         primaryColor := if Present(body.primaryColor) then body.primaryColor else bot.primaryColor,
         isActive := IsActiveFlag(body.isActive))
  }

  /** `hasChanges`: some field of `updateData` differs from the stored row, or documents were added. */
  predicate HasChanges(bot: Chatbot, m: Chatbot, added: nat)
  {
    m.name != bot.name || m.description != bot.description || m.logoUrl != bot.logoUrl
    || m.primaryColor != bot.primaryColor || m.isActive != bot.isActive || added > 0
  }

  /** hasChanges holds exactly when the merged row differs from the stored one or documents were added. */
  lemma HasChangesIffDiffers(bot: Chatbot, body: UpdateBody, logoUrl: string, added: nat)
    ensures HasChanges(bot, Merged(bot, body, logoUrl), added) <==> Merged(bot, body, logoUrl) != bot || added > 0
  {
  }

  /**
   * The `bot.isActive` fallback of updateData is never taken: the new flag is the body's
   * alone, so an update that omits isActive deactivates the chatbot.
   */
  lemma IsActiveIgnoresStoredValue(bot: Chatbot, body: UpdateBody, logoUrl: string)
    ensures Merged(bot, body, logoUrl).isActive <==> IsActiveFlag(body.isActive)
    ensures body.isActive == Absent ==> !Merged(bot, body, logoUrl).isActive
  {
  }

  /** An empty body with no files keeps every field except isActive, which becomes false. */
  lemma EmptyUpdateDeactivates(bot: Chatbot)
    ensures var body := UpdateBody(None, None, None, None, Absent);
            Merged(bot, body, NewLogoUrl(bot, body, None)) == bot.(isActive := false)
  {
  }

  /**
   * PUT /chatbots/:id (behind auth). Failures of the uploads are caught and answered with
   * 500 before any write. The response's documentsCount is read before the new document
   * rows are created, so it counts only the documents the chatbot already had.
   */
  method UpdateChatbot(db: Database, idParam: string, principal: Option<Claims>, body: UpdateBody,
                       logo: Upload, docs: seq<IncomingDocument>, now: int)
    returns (outcome: Outcome, hasChanges: bool, view: Option<BotView>)
    modifies db
    ensures var t := old(db.tables);
            var id := RouteId(Str(idParam));
            && (id.None? ==> outcome == Reply(400))
            && (id.Some? && principal.None? ==> outcome == Reply(401))
            && (id.Some? && principal.Some? && FindChatbot(t, id.value).None? ==> outcome == Reply(404))
            && (id.Some? && principal.Some? && FindChatbot(t, id.value).Some? ==>
                  var bot := FindChatbot(t, id.value).value;
                  if principal.value.role != ADMIN && bot.ownerId != principal.value.id then outcome == Reply(403)
                  else if logo.UploadFailed? || !AllUploaded(docs) then outcome == Reply(500)
                  else outcome == Reply(200))
    ensures outcome != Reply(200) ==> db.tables == old(db.tables)
    ensures outcome == Reply(200) ==>
              var t := old(db.tables);
              var id := RouteId(Str(idParam)).value;
              var j := First(t.chatbots, ChatbotWithId(id)).value;
              var bot := t.chatbots[j];
              var m := Merged(bot, body, NewLogoUrl(bot, body, if logo.Uploaded? then Some(logo.url) else None));
              && hasChanges == HasChanges(bot, m, |docs|)
              && db.tables == WithDocuments(t.(chatbots := t.chatbots[j := m]), docs, id, now)
              && view == Some(ViewOf(m, Count(t.documents, DocumentOf(id))))
  {
    var id := RouteId(Str(idParam));
    if id.None? {
      return Reply(400), false, None;
    }
    if principal.None? {
      return Reply(401), false, None;
    }
    var t := db.tables;
    var found := First(t.chatbots, ChatbotWithId(id.value));
    if found.None? {
      return Reply(404), false, None;
    }
    var bot := t.chatbots[found.value];
    if principal.value.role != ADMIN && bot.ownerId != principal.value.id {
      return Reply(403), false, None;
    }
    if logo.UploadFailed? || !AllUploaded(docs) {
      return Reply(500), false, None;
    }
    var m := Merged(bot, body, NewLogoUrl(bot, body, if logo.Uploaded? then Some(logo.url) else None));
    hasChanges := HasChanges(bot, m, |docs|);
    var documentsCount := Count(t.documents, DocumentOf(id.value));
    db.tables := WithDocuments(t.(chatbots := t.chatbots[found.value := m]), docs, id.value, now);
    outcome := Reply(200);
    view := Some(ViewOf(m, documentsCount));
  }

  // ---------------------------------------------------------------- statistics

  /** GET /chatbots/:id/stats (behind auth): the owner or an ADMIN sees the chatbot's statistics. */
  method GetChatbotStats(db: Database, idParam: string, principal: Claims, now: int)
    returns (outcome: Outcome, stats: Option<BotStats>)
    ensures var id := RouteId(Str(idParam));
            && (id.None? ==> outcome == Reply(400) && stats.None?)
            && (id.Some? && FindChatbot(db.tables, id.value).None? ==> outcome == Reply(404) && stats.None?)
            && (id.Some? && FindChatbot(db.tables, id.value).Some? ==>
                  if principal.role != ADMIN && FindChatbot(db.tables, id.value).value.ownerId != principal.id
                  then outcome == Reply(403) && stats.None?
                  else outcome == Reply(200) && stats == Some(ChatbotStats(db.tables, id.value, now)))
  {
    var id := RouteId(Str(idParam));
    if id.None? {
      return Reply(400), None;
    }
    var bot := FindChatbot(db.tables, id.value);
    if bot.None? {
      return Reply(404), None;
    }
    if principal.role != ADMIN && bot.value.ownerId != principal.id {
      return Reply(403), None;
    }
    return Reply(200), Some(ChatbotStats(db.tables, id.value, now));
  }

  /** GET /chatbots/user-stats (behind auth): the statistics over the principal's chatbots. */
  method GetUserStats(db: Database, principal: Claims, now: int) returns (stats: OwnerStats)
    ensures stats == UserStats(db.tables, principal.role, principal.id, now)
  {
    stats := UserStats(db.tables, principal.role, principal.id, now);
  }
}
