// The chatbot create and edit dialogs (components/chatbots/CreateChatbotModal.tsx and
// EditChatbotModal.tsx): the form state each dialog keeps, the file filters, the edits of
// its selection lists, and what a submit hands to the chatbot cache. A selected file is
// its name and MIME type; object URLs are parameters.
module ChatbotModals {
  import opened Common
  import opened Text
  import opened Store
  import opened ChatbotCache

  datatype SelectedFile = SelectedFile(name: string, mime: string)

  const ROBOT: string := "\U{1F916}"
  const CREATE_COLOR: string := "#3B82F6"
  const EDIT_COLOR: string := "#3b82f6"
  const MAX_INSTRUCTIONS: nat := 1000

  /** The logo pickers accept image/png and image/jpeg only. */
  predicate IsLogoType(mime: string)
  {
    mime == "image/png" || mime == "image/jpeg"
  }

  /** The create dialog's document picker: PDF, plain text, PNG and JPEG. */
  function CreateDocumentType(): SelectedFile -> bool
  {
    (f: SelectedFile) => f.mime in ["application/pdf", "text/plain", "image/png", "image/jpeg"]
  }

  /** The edit dialog's document picker: PDF and plain text only. */
  function EditDocumentType(): SelectedFile -> bool
  {
    (f: SelectedFile) => f.mime in ["application/pdf", "text/plain"]
  }

  function Names(files: seq<SelectedFile>): (r: seq<string>)
    ensures |r| == |files| && forall i :: 0 <= i < |files| ==> r[i] == files[i].name
  {
    seq(|files|, (i: int) requires 0 <= i < |files| => files[i].name)
  }

  function NameNotIn(names: seq<string>): SelectedFile -> bool
  {
    (f: SelectedFile) => f.name !in names
  }

  /**
   * The files a create-dialog pick adds: the accepted ones whose name is not selected
   * yet, in order. Names repeated within the pick are all kept.
   */
  function NewSelections(selected: seq<SelectedFile>, picked: seq<SelectedFile>): (r: seq<SelectedFile>)
    ensures forall i :: 0 <= i < |r| ==> r[i] in picked && CreateDocumentType()(r[i]) && r[i].name !in Names(selected)
    ensures forall f :: f in picked && CreateDocumentType()(f) && f.name !in Names(selected) ==> f in r
  {
    var valid := Where(picked, CreateDocumentType());
    Where(valid, NameNotIn(Names(selected)))
  }

  /** A pick never adds a second file under a name that was already selected. */
  lemma NoNameSelectedTwice(selected: seq<SelectedFile>, picked: seq<SelectedFile>, i: nat, j: nat)
    requires i < |selected| && j < |NewSelections(selected, picked)|
    ensures NewSelections(selected, picked)[j].name != selected[i].name
  {
    assert Names(selected)[i] == selected[i].name;
  }

  /** Two files with one name in the same pick are both kept. */
  lemma DuplicatesWithinAPickStay()
    ensures var f := SelectedFile("a.pdf", "application/pdf");
            NewSelections([], [f, f]) == [f, f]
  {
    var f := SelectedFile("a.pdf", "application/pdf");
    AllMatch([f, f], CreateDocumentType());
    AllMatch([f, f], NameNotIn(Names([])));
  }

  function NameIsNot(name: string): SelectedFile -> bool
  {
    (f: SelectedFile) => f.name != name
  }

  /** What handleSubmit passes to addChatbot: the fields, the logo file and the documents. */
  datatype CreateRequest = CreateRequest(bot: NewBot, logoFile: Option<string>, documents: seq<string>)

  class CreateDialog {
    var name: string
    var description: string
    var logo: string
    var logoFile: Option<SelectedFile>
    var documents: seq<SelectedFile>
    var primaryColor: string
    var open: bool

    /** The initial field values, which a successful submit restores. */
    predicate IsBlank()
      reads this
    {
      name == "" && description == "" && logo == ROBOT && logoFile == None
      && documents == [] && primaryColor == CREATE_COLOR
    }

    constructor (open: bool)
      ensures IsBlank() && this.open == open
    {
      name := "";
      description := "";
      logo := ROBOT;
      logoFile := None;
      documents := [];
      primaryColor := CREATE_COLOR;
      this.open := open;
    }

    /** handleLogoChange: a non-PNG/JPEG file is refused and nothing changes. */
    method HandleLogoChange(file: Option<SelectedFile>, objectUrl: string) returns (refused: bool)
      modifies this
      ensures refused <==> file.Some? && !IsLogoType(file.value.mime)
      ensures file.Some? && !refused ==> logoFile == file && logo == objectUrl
      ensures file.None? || refused ==> logoFile == old(logoFile) && logo == old(logo)
      ensures name == old(name) && description == old(description) && documents == old(documents)
      ensures primaryColor == old(primaryColor) && open == old(open)
    {
      refused := file.Some? && !IsLogoType(file.value.mime);
      if file.Some? && !refused {
        logoFile := file;
        logo := objectUrl;
      }
    }

    /** handleDocumentsChange: the new selections go after the existing ones. */
    method HandleDocumentsChange(picked: seq<SelectedFile>) returns (warned: bool)
      modifies this
      ensures documents == old(documents) + NewSelections(old(documents), picked)
      ensures warned <==> Count(picked, CreateDocumentType()) != |picked|
      ensures name == old(name) && description == old(description) && logo == old(logo)
      ensures logoFile == old(logoFile) && primaryColor == old(primaryColor) && open == old(open)
    {
      warned := Count(picked, CreateDocumentType()) != |picked|;
      documents := documents + NewSelections(documents, picked);
    }

    /** handleRemoveDocument: every selected file with that name goes, the rest keep their order. */
    method HandleRemoveDocument(fileName: string)
      modifies this
      ensures documents == Where(old(documents), NameIsNot(fileName))
      ensures forall i :: 0 <= i < |documents| ==> documents[i].name != fileName
      ensures name == old(name) && logo == old(logo) && logoFile == old(logoFile) && open == old(open)
      ensures description == old(description) && primaryColor == old(primaryColor)
    {
      documents := Where(documents, NameIsNot(fileName));
    }

    /**
     * handleSubmit: an empty name sends nothing. Otherwise the request carries the
     * description as typed, an empty logo when a file was uploaded and the emoji or URL
     * otherwise; after a successful create the fields are reset and the dialog closed,
     * after a failure they are kept.
     */
    method HandleSubmit(created: bool) returns (request: Option<CreateRequest>)
      modifies this
      ensures old(name) == "" <==> request.None?
      ensures request.Some? ==>
                request.value.bot == NewBot(old(name), Some(old(description)),
                                            if old(logoFile).Some? then "" else old(logo), old(primaryColor))
                && request.value.logoFile == (if old(logoFile).Some? then Some(old(logoFile).value.name) else None)
                && request.value.documents == Names(old(documents))
      ensures request.Some? && created ==> IsBlank() && !open
      ensures request.None? || !created ==>
                name == old(name) && description == old(description) && logo == old(logo)
                && logoFile == old(logoFile) && documents == old(documents)
                && primaryColor == old(primaryColor) && open == old(open)
    {
      if name == "" {
        return None;
      }
      var bot := NewBot(name, Some(description), if logoFile.Some? then "" else logo, primaryColor);
      request := Some(CreateRequest(bot, if logoFile.Some? then Some(logoFile.value.name) else None, Names(documents)));
      if created {
        name := "";
        description := "";
        logo := ROBOT;
        logoFile := None;
        documents := [];
        primaryColor := CREATE_COLOR;
        open := false;
      }
    }
  }

  // ---------------------------------------------------------------- edit dialog

  /** The chatbot the edit dialog is opened on; falsy optional fields fall back to defaults. */
  datatype StoredBot = StoredBot(id: int, slug: string, name: string, description: string,
                                 instructions: string, primaryColor: string, logo: string, isActive: bool)

  function OrDefault(s: string, default: string): string
  {
    if s != "" then s else default
  }

  const IMAGE_SUFFIXES: seq<string> := [".png", ".jpg", ".jpeg"]

  /** isValidImageUrl: an http or https URL ending, in any case, in .png, .jpg or .jpeg. */
  predicate IsValidImageUrl(url: string)
  {
    url != ""
    && (StartsWith(url, "http://") || StartsWith(url, "https://"))
    && (EndsWith(ToLower(url), ".png") || EndsWith(ToLower(url), ".jpg") || EndsWith(ToLower(url), ".jpeg"))
  }

  /** The scheme is matched as written while the extension ignores case. */
  lemma ImageUrlExamples()
    ensures IsValidImageUrl("https://cdn.example.com/logo.PNG")
    ensures !IsValidImageUrl("HTTPS://cdn.example.com/logo.png")
    ensures !IsValidImageUrl("https://cdn.example.com/logo.gif")
  {
    var a := "https://cdn.example.com/logo.PNG";
    assert a[..8] == "https://";
    assert ToLower(a)[|a| - 4..] == ".png";
    var b := "HTTPS://cdn.example.com/logo.png";
    assert b[..7] != "http://" && b[..8] != "https://" by {
      assert b[0] != 'h';
    }
    var c := "https://cdn.example.com/logo.gif";
    assert ToLower(c)[|c| - 1] == 'f';
    assert ToLower(c)[|c| - 4..] != ".png" && ToLower(c)[|c| - 4..] != ".jpg";
    assert ToLower(c)[|c| - 5..] != ".jpeg";
  }

  /** removeNewDocument: `prev.filter((_, i) => i !== index)`. */
  function RemoveIndex<T>(s: seq<T>, index: int): (r: seq<T>)
    ensures 0 <= index < |s| ==> r == s[..index] + s[index + 1..]
    ensures !(0 <= index < |s|) ==> r == s
  {
    if 0 <= index < |s| then s[..index] + s[index + 1..] else s
  }

  /** How an attempted update is addressed: the key updateChatbot parses with parseInt(·, 10). */
  function SubmitTargetAsWritten(bot: StoredBot): Option<int>
  {
    UpdateTarget(Str(bot.slug))
  }

  /**
   * A slug is a UUID. One that starts with a decimal digit followed by a hex letter
   * addresses the chatbot whose id is that one digit; one that starts with a letter
   * makes updateChatbot throw after the queued deletions have already run.
   */
  lemma {:induction false} SlugTargetsAnotherBot(bot: StoredBot)
    requires |bot.slug| >= 2 && '1' <= bot.slug[0] <= '9' && 'a' <= bot.slug[1] <= 'f'
    ensures SubmitTargetAsWritten(bot) == Some(bot.slug[0] as int - '0' as int)
  {
    var s := bot.slug;
    assert LeadingCount(s, IsJsSpace) == 0;
    assert TrimStart(s, IsJsSpace) == s;
    assert s[1..][0] == s[1];
    assert DigitRun(s[1..], 10) == 0;
    assert DigitRun(s, 10) == 1;
    assert s[..1] == [s[0]] && [s[0]][..0] == [];
    assert DigitsValue(s[..1], 10) == s[0] as int - '0' as int;
    assert ParseUnsigned(s, false) == Some(s[0] as int - '0' as int);
    assert ParseInt(s, false) == Some(s[0] as int - '0' as int);
  }

  lemma {:induction false} LetterSlugThrows(bot: StoredBot)
    requires |bot.slug| >= 1 && 'a' <= bot.slug[0] <= 'f'
    ensures SubmitTargetAsWritten(bot).None?
  {
    WordIsNaN(bot.slug, false);
  }

  /** The corrected key: the edited chatbot's own id. */
  function SubmitTarget(bot: StoredBot): (target: Option<int>)
    ensures bot.id != 0 ==> target == Some(bot.id)
    ensures bot.id == 0 ==> target.None?
  {
    UpdateTarget(Num(bot.id))
  }

  /** The four fields of the updates object the cache turns into a form, plus the files. */
  datatype EditFields = EditFields(name: string, description: string, instructions: string, primaryColor: string,
                                   logo: string, isActive: bool)

  /** The field values a freshly opened dialog shows for `bot`. */
  function Defaults(bot: StoredBot): EditFields
  {
    EditFields(bot.name, bot.description, bot.instructions, OrDefault(bot.primaryColor, EDIT_COLOR),
               OrDefault(bot.logo, ROBOT), bot.isActive)
  }

  /**
   * hasChanges: some field differs from its stored value with the dialog's defaults, or
   * a logo file, new documents or deletions are queued.
   */
  predicate HasChanges(bot: StoredBot, f: EditFields, logoFile: Option<SelectedFile>,
                       documentFiles: seq<SelectedFile>, documentsToDelete: seq<int>)
  {
    f != Defaults(bot) || logoFile.Some? || |documentFiles| > 0 || |documentsToDelete| > 0
  }

  /** The updates object handleSubmit builds, as the cache's BotUpdates. */
  function UpdatesOf(f: EditFields, logoFile: Option<SelectedFile>, documentFiles: seq<SelectedFile>): (u: BotUpdates)
    ensures u.name == Some(f.name) && u.description == Some(f.description) && u.isActive == Some(f.isActive)
    ensures u.documents == Names(documentFiles)
  {
    BotUpdates(Some(f.name), Some(f.description), Some(f.logo), Some(f.primaryColor), Some(f.isActive),
               if logoFile.Some? then Some(logoFile.value.name) else None, Names(documentFiles))
  }

  /** The outcome of one handleSubmit. */
  datatype SubmitResult =
    | TooLong
    | DeleteFailed(deleted: seq<int>)
    | Sent(deleted: seq<int>, target: Option<int>, updates: BotUpdates, hasChanges: bool)

  class EditDialog {
    const bot: StoredBot
    var fields: EditFields
    var logoFile: Option<SelectedFile>
    var documentFiles: seq<SelectedFile>
    var existingDocuments: seq<CachedDocument>
    var documentsToDelete: seq<int>
    var open: bool

    /** Opening the dialog: the stored values with their defaults, nothing queued. */
    constructor (bot: StoredBot, existing: seq<CachedDocument>)
      ensures this.bot == bot && fields == Defaults(bot)
      ensures logoFile == None && documentFiles == [] && documentsToDelete == []
      ensures existingDocuments == existing && open
      ensures !HasChanges(bot, fields, logoFile, documentFiles, documentsToDelete)
    {
      this.bot := bot;
      fields := Defaults(bot);
      logoFile := None;
      documentFiles := [];
      existingDocuments := existing;
      documentsToDelete := [];
      open := true;
    }

    /**
     * handleFileChange for the logo: a non-PNG/JPEG file is refused; otherwise the file
     * is queued and shown, and clearing the input restores the stored logo or the emoji.
     */
    method ChooseLogo(file: Option<SelectedFile>, objectUrl: string) returns (refused: bool)
      modifies this
      ensures refused <==> file.Some? && !IsLogoType(file.value.mime)
      ensures refused ==> fields == old(fields) && logoFile == old(logoFile)
      ensures !refused ==> logoFile == file
                           && fields == old(fields).(logo := if file.Some? then objectUrl else OrDefault(bot.logo, ROBOT))
      ensures documentFiles == old(documentFiles) && documentsToDelete == old(documentsToDelete)
      ensures existingDocuments == old(existingDocuments) && open == old(open)
    {
      if file.Some? && !IsLogoType(file.value.mime) {
        return true;
      }
      logoFile := file;
      fields := fields.(logo := if file.Some? then objectUrl else OrDefault(bot.logo, ROBOT));
      refused := false;
    }

    /** handleFileChange for documents: PDF and text files are appended, others dropped with a warning. */
    method ChooseDocuments(picked: seq<SelectedFile>) returns (warned: bool)
      modifies this
      ensures documentFiles == old(documentFiles) + Where(picked, EditDocumentType())
      ensures warned <==> Count(picked, EditDocumentType()) != |picked|
      ensures fields == old(fields) && logoFile == old(logoFile) && documentsToDelete == old(documentsToDelete)
      ensures existingDocuments == old(existingDocuments) && open == old(open)
    {
      documentFiles := documentFiles + Where(picked, EditDocumentType());
      warned := Count(picked, EditDocumentType()) != |picked|;
    }

    /** removeNewDocument: exactly the file at that index leaves the queue. */
    method RemoveNewDocument(index: int)
      modifies this
      ensures documentFiles == RemoveIndex(old(documentFiles), index)
      ensures fields == old(fields) && logoFile == old(logoFile) && documentsToDelete == old(documentsToDelete)
      ensures existingDocuments == old(existingDocuments) && open == old(open)
    {
      documentFiles := RemoveIndex(documentFiles, index);
    }

    /** handleDeleteDocument: the id is queued for deletion and hidden from the existing list. */
    method HandleDeleteDocument(docId: int)
      modifies this
      ensures documentsToDelete == old(documentsToDelete) + [docId]
      ensures existingDocuments == Without(old(existingDocuments), ChatbotCache.DocumentWithId(docId))
      ensures fields == old(fields) && logoFile == old(logoFile) && documentFiles == old(documentFiles)
      ensures open == old(open)
    {
      documentsToDelete := documentsToDelete + [docId];
      existingDocuments := Without(existingDocuments, ChatbotCache.DocumentWithId(docId));
    }

    /**
     * handleSubmit: instructions over 1000 UTF-16 units stop before anything is sent.
     * Then the queued deletions run one by one in queue order; the first that fails
     * (`failsAt`) stops the submit before the update. Otherwise the update is sent
     * whether or not anything changed, and `hasChanges` only picks the message; the
     * dialog closes when the update succeeds.
     */
    method HandleSubmit(failsAt: Option<nat>, updated: bool) returns (result: SubmitResult)
      modifies this
      ensures JsLength(old(fields).instructions) > MAX_INSTRUCTIONS <==> result == TooLong
      ensures result.DeleteFailed? <==>
                JsLength(old(fields).instructions) <= MAX_INSTRUCTIONS
                && failsAt.Some? && failsAt.value < |old(documentsToDelete)|
      ensures result.DeleteFailed? ==> result.deleted == old(documentsToDelete)[..failsAt.value + 1]
      ensures result.Sent? ==>
                result.deleted == old(documentsToDelete)
                && result.target == SubmitTarget(bot)
                && result.updates == UpdatesOf(old(fields), old(logoFile), old(documentFiles))
                && (result.hasChanges <==> HasChanges(bot, old(fields), old(logoFile), old(documentFiles), old(documentsToDelete)))
      ensures open == (if result.Sent? && updated then false else old(open))
      ensures fields == old(fields) && logoFile == old(logoFile) && documentFiles == old(documentFiles)
      ensures documentsToDelete == old(documentsToDelete) && existingDocuments == old(existingDocuments)
    {
      if JsLength(fields.instructions) > MAX_INSTRUCTIONS {
        return TooLong;
      }
      var deleted: seq<int> := [];
      var i := 0;
      while i < |documentsToDelete|
        invariant 0 <= i <= |documentsToDelete|
        invariant deleted == documentsToDelete[..i]
        invariant failsAt.Some? ==> failsAt.value >= i
      {
        deleted := deleted + [documentsToDelete[i]];
        if failsAt == Some(i) {
          assert deleted == documentsToDelete[..i + 1];
          return DeleteFailed(deleted);
        }
        i := i + 1;
      }
      assert deleted == documentsToDelete;
      var changed := HasChanges(bot, fields, logoFile, documentFiles, documentsToDelete);
      result := Sent(deleted, SubmitTarget(bot), UpdatesOf(fields, logoFile, documentFiles), changed);
      if updated {
        open := false;
      }
    }
  }

  /**
   * The dialog validates and compares the instructions, but updateChatbot's form has no
   * entry for them: a submit whose only edit is the instructions counts as a change and
   * sends nothing under that key.
   */
  lemma {:induction false} InstructionsAreNotSent(bot: StoredBot, text: string)
    requires text != bot.instructions
    ensures HasChanges(bot, Defaults(bot).(instructions := text), None, [], [])
    ensures Pick(UpdateForm(UpdatesOf(Defaults(bot).(instructions := text), None, [])), "instructions") == []
  {
    UpdateFormReadsBack(UpdatesOf(Defaults(bot).(instructions := text), None, []), "instructions");
  }
}
