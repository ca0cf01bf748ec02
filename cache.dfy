// The admin frontend's chatbot cache (contexts/ChatbotContext.tsx): the React-Query list
// under the 'chatbots' key and the selected chatbot, and the multipart forms the
// mutations post. The stored token, and each server answer (None when axios throws),
// are parameters; the toasts, console logs and query invalidations are not modelled.
module ChatbotCache {
  import opened Common
  import opened Text
  import opened Store

  datatype CachedDocument = CachedDocument(id: int, fileName: string)

  /** A cached chatbot; `documents` is optional in the cached shape. */
  datatype CachedBot = CachedBot(id: int, name: string, description: Option<string>, logo: string,
                                 primaryColor: string, isActive: bool, documentsCount: int,
                                 documents: Option<seq<CachedDocument>>)

  /** One FormData entry: a text field, or a file named by its file name. */
  datatype FormEntry = Field(key: string, value: string) | FilePart(key: string, fileName: string)

  /** `localStorage.getItem('token')` is truthy. */
  predicate HasToken(token: Option<string>)
  {
    Present(token)
  }

  // ---------------------------------------------------------------- forms

  /** The value of an optional string, read only where it is known to be present. */
  function OrEmpty(o: Option<string>): string
  {
    if o.Some? then o.value else ""
  }

  /** `if (cond) formData.append(...)`. */
  function When(cond: bool, e: FormEntry): seq<FormEntry>
  {
    if cond then [e] else []
  }

  /** One 'documents' file part per file, in order. */
  function DocumentParts(files: seq<string>): (parts: seq<FormEntry>)
    ensures |parts| == |files|
    ensures forall i :: 0 <= i < |files| ==> parts[i] == FilePart("documents", files[i])
  {
    seq(|files|, (i: int) requires 0 <= i < |files| => FilePart("documents", files[i]))
  }

  /** The fields of a new chatbot as the create modal hands them over. */
  datatype NewBot = NewBot(name: string, description: Option<string>, logo: string, primaryColor: string)

  /**
   * addChatbot's form: name and logoUrl always, description and primaryColor when
   * truthy, the logo file when given, then the documents.
   */
  function CreateForm(bot: NewBot, logoFile: Option<string>, documents: seq<string>): seq<FormEntry>
  {
    [Field("name", bot.name)]
    + (When(Present(bot.description), Field("description", OrEmpty(bot.description)))
    + ([Field("logoUrl", bot.logo)]
    + (When(bot.primaryColor != "", Field("primaryColor", bot.primaryColor))
    + (When(logoFile.Some?, FilePart("logo", OrEmpty(logoFile)))
    + DocumentParts(documents)))))
  }

  /** `Partial<Chatbot> & { logoFile?, documents? }`: None is undefined. */
  datatype BotUpdates = BotUpdates(name: Option<string>, description: Option<string>, logo: Option<string>,
                                   primaryColor: Option<string>, isActive: Option<bool>,
                                   logoFile: Option<string>, documents: seq<string>)

  /** `String(isActive)`. */
  function BoolText(b: bool): string
  {
    if b then "true" else "false"
  }

  /**
   * updateChatbot's form: name, logoUrl and primaryColor only when truthy, description
   * and isActive whenever defined, the logo file when given, then the documents.
   */
  function UpdateForm(u: BotUpdates): seq<FormEntry>
  {
    When(Present(u.name), Field("name", OrEmpty(u.name)))
    + (When(u.description.Some?, Field("description", OrEmpty(u.description)))
    + (When(u.logoFile.Some?, FilePart("logo", OrEmpty(u.logoFile)))
    + (When(Present(u.logo), Field("logoUrl", OrEmpty(u.logo)))
    + UpdateFormTail(u))))
  }

  function UpdateFormTail(u: BotUpdates): seq<FormEntry>
  {
    When(Present(u.primaryColor), Field("primaryColor", OrEmpty(u.primaryColor)))
    + (When(u.isActive.Some?, Field("isActive", BoolText(u.isActive == Some(true))))
    + DocumentParts(u.documents))
  }

  /** The entries of a form under one key, in order: what `req.body[key]` and `req.files[key]` collect. */
  function Pick(form: seq<FormEntry>, key: string): seq<FormEntry>
  {
    if |form| == 0 then [] else When(form[0].key == key, form[0]) + Pick(form[1..], key)
  }

  lemma {:induction false} PickConcat(a: seq<FormEntry>, b: seq<FormEntry>, key: string)
    ensures Pick(a + b, key) == Pick(a, key) + Pick(b, key)
  {
    if |a| > 0 {
      assert (a + b)[1..] == a[1..] + b;
      PickConcat(a[1..], b, key);
    } else {
      assert a + b == b;
    }
  }

  lemma PickWhen(cond: bool, e: FormEntry, key: string)
    ensures Pick(When(cond, e), key) == When(cond && e.key == key, e)
  {
    if cond {
      assert [e][1..] == [];
    }
  }

  lemma {:induction false} PickDocumentParts(files: seq<string>, key: string)
    ensures Pick(DocumentParts(files), key) == if key == "documents" then DocumentParts(files) else []
  {
    if |files| > 0 {
      assert DocumentParts(files)[1..] == DocumentParts(files[1..]);
      PickDocumentParts(files[1..], key);
      assert DocumentParts(files) == [FilePart("documents", files[0])] + DocumentParts(files[1..]);
    }
  }

  /**
   * What the server reads back from addChatbot's form under each key: one name and one
   * logoUrl, the optional fields exactly when they were set, and the documents in order.
   */
  lemma {:induction false} CreateFormReadsBack(bot: NewBot, logoFile: Option<string>, documents: seq<string>, key: string)
    ensures Pick(CreateForm(bot, logoFile, documents), key) ==
              When(key == "name", Field("name", bot.name))
              + (When(key == "description" && Present(bot.description), Field("description", OrEmpty(bot.description)))
              + (When(key == "logoUrl", Field("logoUrl", bot.logo))
              + (When(key == "primaryColor" && bot.primaryColor != "", Field("primaryColor", bot.primaryColor))
              + (When(key == "logo" && logoFile.Some?, FilePart("logo", OrEmpty(logoFile)))
              + (if key == "documents" then DocumentParts(documents) else [])))))
  {
    var a := [Field("name", bot.name)];
    var b := When(Present(bot.description), Field("description", OrEmpty(bot.description)));
    var c := [Field("logoUrl", bot.logo)];
    var d := When(bot.primaryColor != "", Field("primaryColor", bot.primaryColor));
    var e := When(logoFile.Some?, FilePart("logo", OrEmpty(logoFile)));
    var f := DocumentParts(documents);
    assert CreateForm(bot, logoFile, documents) == a + (b + (c + (d + (e + f))));
    PickConcat(a, b + (c + (d + (e + f))), key);
    PickConcat(b, c + (d + (e + f)), key);
    PickConcat(c, d + (e + f), key);
    PickConcat(d, e + f, key);
    PickConcat(e, f, key);
    PickWhen(true, Field("name", bot.name), key);
    PickWhen(Present(bot.description), Field("description", OrEmpty(bot.description)), key);
    PickWhen(true, Field("logoUrl", bot.logo), key);
    PickWhen(bot.primaryColor != "", Field("primaryColor", bot.primaryColor), key);
    PickWhen(logoFile.Some?, FilePart("logo", OrEmpty(logoFile)), key);
    PickDocumentParts(documents, key);
  }

  /**
   * What the server reads back from updateChatbot's form under each key: every field
   * at most once, exactly when its rule sends it, and the documents in order.
   */
  lemma {:induction false} UpdateFormReadsBack(u: BotUpdates, key: string)
    ensures Pick(UpdateForm(u), key) ==
              When(key == "name" && Present(u.name), Field("name", OrEmpty(u.name)))
              + (When(key == "description" && u.description.Some?, Field("description", OrEmpty(u.description)))
              + (When(key == "logo" && u.logoFile.Some?, FilePart("logo", OrEmpty(u.logoFile)))
              + (When(key == "logoUrl" && Present(u.logo), Field("logoUrl", OrEmpty(u.logo)))
              + (When(key == "primaryColor" && Present(u.primaryColor), Field("primaryColor", OrEmpty(u.primaryColor)))
              + (When(key == "isActive" && u.isActive.Some?, Field("isActive", BoolText(u.isActive == Some(true))))
              + (if key == "documents" then DocumentParts(u.documents) else []))))))
  {
    var a := When(Present(u.name), Field("name", OrEmpty(u.name)));
    var b := When(u.description.Some?, Field("description", OrEmpty(u.description)));
    var c := When(u.logoFile.Some?, FilePart("logo", OrEmpty(u.logoFile)));
    var d := When(Present(u.logo), Field("logoUrl", OrEmpty(u.logo)));
    var t := UpdateFormTail(u);
    PickConcat(a, b + (c + (d + t)), key);
    PickConcat(b, c + (d + t), key);
    PickConcat(c, d + t, key);
    PickConcat(d, t, key);
    PickWhen(Present(u.name), Field("name", OrEmpty(u.name)), key);
    PickWhen(u.description.Some?, Field("description", OrEmpty(u.description)), key);
    PickWhen(u.logoFile.Some?, FilePart("logo", OrEmpty(u.logoFile)), key);
    PickWhen(Present(u.logo), Field("logoUrl", OrEmpty(u.logo)), key);
    UpdateFormTailReadsBack(u, key);
  }

  lemma {:induction false} UpdateFormTailReadsBack(u: BotUpdates, key: string)
    ensures Pick(UpdateFormTail(u), key) ==
              When(key == "primaryColor" && Present(u.primaryColor), Field("primaryColor", OrEmpty(u.primaryColor)))
              + (When(key == "isActive" && u.isActive.Some?, Field("isActive", BoolText(u.isActive == Some(true))))
              + (if key == "documents" then DocumentParts(u.documents) else []))
  {
    var e := When(Present(u.primaryColor), Field("primaryColor", OrEmpty(u.primaryColor)));
    var g := When(u.isActive.Some?, Field("isActive", BoolText(u.isActive == Some(true))));
    var f := DocumentParts(u.documents);
    PickConcat(e, g + f, key);
    PickConcat(g, f, key);
    PickWhen(Present(u.primaryColor), Field("primaryColor", OrEmpty(u.primaryColor)), key);
    PickWhen(u.isActive.Some?, Field("isActive", BoolText(u.isActive == Some(true))), key);
    PickDocumentParts(u.documents, key);
  }

  // ---------------------------------------------------------------- cache edits

  function BotWithId(id: int): CachedBot -> bool
  {
    (b: CachedBot) => b.id == id
  }

  /** `old.map(bot => bot.id === id ? updated : bot)`. */
  function ReplaceBot(bots: seq<CachedBot>, id: int, updated: CachedBot): (r: seq<CachedBot>)
    ensures |r| == |bots|
    ensures forall i :: 0 <= i < |bots| && bots[i].id != id ==> r[i] == bots[i]
    ensures forall i :: 0 <= i < |bots| && bots[i].id == id ==> r[i] == updated
  {
    seq(|bots|, (i: int) requires 0 <= i < |bots| => if bots[i].id == id then updated else bots[i])
  }

  /** Replacing with a bot that keeps the id is idempotent, and a missing id leaves the list as it is. */
  lemma ReplaceBotSettles(bots: seq<CachedBot>, id: int, updated: CachedBot)
    ensures updated.id == id ==> ReplaceBot(ReplaceBot(bots, id, updated), id, updated) == ReplaceBot(bots, id, updated)
    ensures (forall i :: 0 <= i < |bots| ==> bots[i].id != id) ==> ReplaceBot(bots, id, updated) == bots
  {
  }

  function DocumentWithId(id: int): CachedDocument -> bool
  {
    (d: CachedDocument) => d.id == id
  }

  /**
   * deleteDocument's edit of the owning bot: one less in documentsCount, and the
   * document filtered out of its list, or [] when the list was not loaded.
   */
  function DropDocument(bot: CachedBot, docId: int): (r: CachedBot)
    ensures r.documentsCount == bot.documentsCount - 1
    ensures r.documents.Some?
    ensures bot.documents.None? ==> r.documents.value == []
    ensures bot.documents.Some? ==> r.documents.value == Without(bot.documents.value, DocumentWithId(docId))
    ensures r == bot.(documentsCount := r.documentsCount, documents := r.documents)
  {
    bot.(documentsCount := bot.documentsCount - 1,
         documents := Some(if bot.documents.Some? then Without(bot.documents.value, DocumentWithId(docId)) else []))
  }

  /** The whole cache edit of deleteDocument: only the bots with that id change. */
  function DropDocumentOf(bots: seq<CachedBot>, docId: int, chatbotId: int): (r: seq<CachedBot>)
    ensures |r| == |bots|
    ensures forall i :: 0 <= i < |bots| ==> r[i] == if bots[i].id == chatbotId then DropDocument(bots[i], docId) else bots[i]
  {
    seq(|bots|, (i: int) requires 0 <= i < |bots| => if bots[i].id == chatbotId then DropDocument(bots[i], docId) else bots[i])
  }

  /**
   * When a bot's loaded list agrees with its count and holds the deleted document once,
   * they still agree afterwards; a document that is not in the list still lowers the
   * count, so the two drift apart.
   */
  lemma {:induction false} DropDocumentKeepsCountInStep(bot: CachedBot, docId: int)
    requires bot.documents.Some? && bot.documentsCount == |bot.documents.value|
    ensures Count(bot.documents.value, DocumentWithId(docId)) == 1 ==>
              DropDocument(bot, docId).documentsCount == |DropDocument(bot, docId).documents.value|
    ensures Count(bot.documents.value, DocumentWithId(docId)) == 0 ==>
              DropDocument(bot, docId).documentsCount == |DropDocument(bot, docId).documents.value| - 1
  {
    var r := DropDocument(bot, docId);
    assert |r.documents.value| + Count(bot.documents.value, DocumentWithId(docId)) == |bot.documents.value|;
  }

  // ---------------------------------------------------------------- the provider

  /** `parseInt(id, 10)` is neither NaN nor 0, the check updateChatbot makes first. */
  function UpdateTarget(id: JsValue): (r: Option<int>)
    ensures r.Some? <==> TruthyId(ParseIntValue(id, false))
    ensures r.Some? ==> r.value != 0 && Some(r.value) == ParseIntValue(id, false)
  {
    var n := ParseIntValue(id, false);
    if TruthyId(n) then n else None
  }

  class ChatbotStore {
    var chatbots: seq<CachedBot>
    var selected: Option<CachedBot>

    /** Before the first fetch the list defaults to [] and nothing is selected. */
    constructor ()
      ensures chatbots == [] && selected == None
    {
      chatbots := [];
      selected := None;
    }

    /** The query function: [] without a token, else the fetched list; a failed fetch keeps the cache. */
    method Fetch(token: Option<string>, fetched: Option<seq<CachedBot>>) returns (ok: bool)
      modifies this
      ensures ok <==> !HasToken(token) || fetched.Some?
      ensures !HasToken(token) ==> chatbots == []
      ensures HasToken(token) && fetched.Some? ==> chatbots == fetched.value
      ensures !ok ==> chatbots == old(chatbots)
      ensures selected == old(selected)
    {
      if !HasToken(token) {
        chatbots := [];
        return true;
      }
      if fetched.None? {
        return false;
      }
      chatbots := fetched.value;
      return true;
    }

    /**
     * addChatbot: throws before sending without a token; on success the created bot is
     * appended at the end of the cached list.
     */
    method AddChatbot(token: Option<string>, bot: NewBot, logoFile: Option<string>, documents: seq<string>,
                      created: Option<CachedBot>)
      returns (ok: bool, sent: Option<seq<FormEntry>>)
      modifies this
      ensures !HasToken(token) ==> sent.None?
      ensures HasToken(token) ==> sent == Some(CreateForm(bot, logoFile, documents))
      ensures ok <==> HasToken(token) && created.Some?
      ensures ok ==> chatbots == old(chatbots) + [created.value]
      ensures !ok ==> chatbots == old(chatbots)
      ensures selected == old(selected)
    {
      if !HasToken(token) {
        return false, None;
      }
      sent := Some(CreateForm(bot, logoFile, documents));
      if created.None? {
        return false, sent;
      }
      chatbots := chatbots + [created.value];
      ok := true;
    }

    /**
     * updateChatbot: throws for an id that parses to NaN or 0, then without a token;
     * on success the bots with that id are replaced by the server's answer in place.
     */
    method UpdateChatbot(id: JsValue, updates: BotUpdates, token: Option<string>, answer: Option<CachedBot>)
      returns (ok: bool, sent: Option<seq<FormEntry>>)
      modifies this
      ensures UpdateTarget(id).None? || !HasToken(token) ==> sent.None?
      ensures UpdateTarget(id).Some? && HasToken(token) ==> sent == Some(UpdateForm(updates))
      ensures ok <==> UpdateTarget(id).Some? && HasToken(token) && answer.Some?
      ensures ok ==> chatbots == ReplaceBot(old(chatbots), UpdateTarget(id).value, answer.value)
      ensures !ok ==> chatbots == old(chatbots)
      ensures selected == old(selected)
    {
      var target := UpdateTarget(id);
      if target.None? || !HasToken(token) {
        return false, None;
      }
      sent := Some(UpdateForm(updates));
      if answer.None? {
        return false, sent;
      }
      chatbots := ReplaceBot(chatbots, target.value, answer.value);
      ok := true;
    }

    /**
     * deleteChatbot: throws for a falsy or NaN id (None), then without a token; when the
     * server accepts, exactly the bots with that id leave the cache.
     */
    method DeleteChatbot(id: Option<int>, token: Option<string>, accepted: bool) returns (ok: bool, requested: bool)
      modifies this
      ensures requested <==> TruthyId(id) && HasToken(token)
      ensures ok <==> requested && accepted
      ensures ok ==> chatbots == Without(old(chatbots), BotWithId(id.value))
      ensures !ok ==> chatbots == old(chatbots)
      ensures selected == old(selected)
    {
      if !TruthyId(id) || !HasToken(token) {
        return false, false;
      }
      if !accepted {
        return false, true;
      }
      chatbots := Without(chatbots, BotWithId(id.value));
      return true, true;
    }

    /**
     * deleteDocument: throws without a token; when the server accepts, the bots with
     * that chatbotId drop the document and one from their count, others are unchanged.
     */
    method DeleteDocument(docId: int, chatbotId: int, token: Option<string>, accepted: bool) returns (ok: bool)
      modifies this
      ensures ok <==> HasToken(token) && accepted
      ensures ok ==> chatbots == DropDocumentOf(old(chatbots), docId, chatbotId)
      ensures !ok ==> chatbots == old(chatbots)
      ensures selected == old(selected)
    {
      if !HasToken(token) || !accepted {
        return false;
      }
      chatbots := DropDocumentOf(chatbots, docId, chatbotId);
      ok := true;
    }

    /** replaceDocument: throws without a token; it posts one 'document' file and only invalidates the query. */
    method ReplaceDocument(file: string, token: Option<string>, accepted: bool)
      returns (ok: bool, sent: Option<seq<FormEntry>>)
      ensures sent == (if HasToken(token) then Some([FilePart("document", file)]) else None)
      ensures ok <==> HasToken(token) && accepted
    {
      if !HasToken(token) {
        return false, None;
      }
      return accepted, Some([FilePart("document", file)]);
    }

    /** selectChatbot: a bot with a falsy id is ignored; anything else, null included, becomes the selection. */
    method SelectChatbot(bot: Option<CachedBot>)
      modifies this
      ensures bot.Some? && bot.value.id == 0 ==> selected == old(selected)
      ensures !(bot.Some? && bot.value.id == 0) ==> selected == bot
      ensures chatbots == old(chatbots)
    {
      if bot.Some? && bot.value.id == 0 {
        return;
      }
      selected := bot;
    }
  }
}
