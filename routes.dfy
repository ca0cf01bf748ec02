// The chatbot router (routes/chatbot.routes.js): the multer file-name rule, the file
// filter and limits, and the ordered route table with its auth middleware.
module ChatbotRoutes {
  import opened Common
  import opened Text

  // ---------------------------------------------------------------- stored file names

  /** The characters `[a-zA-Z0-9.-]` that the multer file-name rule keeps. */
  predicate KeptInFileName(c: char)
  {
    ('a' <= c <= 'z') || ('A' <= c <= 'Z') || ('0' <= c <= '9') || c == '.' || c == '-'
  }

  function MaskFileName(s: string): (r: string)
    ensures |r| == |s|
    ensures forall i :: 0 <= i < |s| ==> r[i] == (if KeptInFileName(s[i]) then s[i] else '_')
  {
    seq(|s|, i requires 0 <= i < |s| => if KeptInFileName(s[i]) then s[i] else '_')
  }

  /**
   * `originalname.replace(/[^a-zA-Z0-9.-]/g, '_').replace(/\s+/g, '_')`. The first replace
   * already removes every whitespace character, so the result maps the name character
   * for character.
   */
  function SanitizedUploadName(original: string): (r: string)
    ensures |r| == |original|
    ensures forall i :: 0 <= i < |r| ==> r[i] == (if KeptInFileName(original[i]) then original[i] else '_')
  {
    var masked := MaskFileName(original);
    CollapseSpacesNoop(masked);
    CollapseSpaces(masked)
  }

  /**
   * `${Date.now()}-${sanitizedName}`. The name holds only safe characters and the
   * timestamp is everything before the first '-'.
   */
  function StoredFileName(now: nat, original: string): (r: string)
    ensures |r| == |NatToDecimal(now)| + 1 + |original|
    ensures forall i :: 0 <= i < |r| ==> KeptInFileName(r[i]) || r[i] == '_'
    ensures TakeUntil(r, '-') == NatToDecimal(now)
  {
    var stamp := NatToDecimal(now);
    var r := stamp + "-" + SanitizedUploadName(original);
    assert r == stamp + ['-'] + SanitizedUploadName(original);
    SplitAfterPrefix(stamp, '-', SanitizedUploadName(original));
    SplitFirstField(r, '-');
    r
  }

  // ---------------------------------------------------------------- file filter and limits

  const ALLOWED_MIME_TYPES: seq<string> := ["image/png", "image/jpeg", "application/pdf", "text/plain"]

  /** limits.fileSize: 5 MB. */
  const MAX_FILE_SIZE: nat := 5 * 1024 * 1024

  datatype IncomingFile = IncomingFile(field: string, originalName: string, mimetype: string, size: nat)

  /** One entry of `upload.fields([...])` or the single field of `upload.array(name, n)`. */
  datatype FieldLimit = FieldLimit(name: string, maxCount: nat)

  datatype UploadError =
    | UnexpectedFile(field: string)
    | InvalidFileType(mimetype: string)
    | FileTooLarge(originalName: string)

  /** The fields of the create and update routes: one logo and up to ten documents. */
  const CHATBOT_FIELDS: seq<FieldLimit> := [FieldLimit("logo", 1), FieldLimit("documents", 10)]

  /** The field of the upload-documents route. */
  const DOCUMENT_FIELDS: seq<FieldLimit> := [FieldLimit("documents", 10)]

  /** The number of files sent under `field`. */
  function FieldCount(files: seq<IncomingFile>, field: string): (n: nat)
    ensures n <= |files|
  {
    if |files| == 0 then 0
    else FieldCount(files[..|files| - 1], field) + (if files[|files| - 1].field == field then 1 else 0)
  }

  function MaxCountOf(limits: seq<FieldLimit>, field: string): Option<nat>
  {
    if |limits| == 0 then None
    else if limits[0].name == field then Some(limits[0].maxCount)
    else MaxCountOf(limits[1..], field)
  }

  /**
   * What multer decides for the k-th file: first the field and its count so far, then
   * the fileFilter on the MIME type, then the size limit while the file is stored.
   */
  function FileVerdict(files: seq<IncomingFile>, limits: seq<FieldLimit>, k: nat): Option<UploadError>
    requires k < |files|
  {
    var f := files[k];
    var max := MaxCountOf(limits, f.field);
    if max.None? || FieldCount(files[..k + 1], f.field) > max.value then Some(UnexpectedFile(f.field))
    else if f.mimetype !in ALLOWED_MIME_TYPES then Some(InvalidFileType(f.mimetype))
    else if f.size > MAX_FILE_SIZE then Some(FileTooLarge(f.originalName))
    else None
  }

  /** The first error among the files from position k on; the request fails on it. */
  function CheckFrom(files: seq<IncomingFile>, limits: seq<FieldLimit>, k: nat): (e: Option<UploadError>)
    requires k <= |files|
    decreases |files| - k
    ensures e == None <==> forall j :: k <= j < |files| ==> FileVerdict(files, limits, j) == None
  {
    if k == |files| then None
    else if FileVerdict(files, limits, k).Some? then FileVerdict(files, limits, k)
    else CheckFrom(files, limits, k + 1)
  }

  function CheckUploads(files: seq<IncomingFile>, limits: seq<FieldLimit>): Option<UploadError>
  {
    CheckFrom(files, limits, 0)
  }

  /**
   * A request passes multer exactly when every file has an allowed MIME type, is at most
   * 5 MB, and its field is declared and not over its maxCount.
   */
  lemma {:induction false} UploadsAccepted(files: seq<IncomingFile>, limits: seq<FieldLimit>)
    ensures CheckUploads(files, limits) == None ==>
      forall f :: f in files ==> f.mimetype in ALLOWED_MIME_TYPES && f.size <= MAX_FILE_SIZE
                                  && MaxCountOf(limits, f.field).Some?
                                  && FieldCount(files, f.field) <= MaxCountOf(limits, f.field).value
    ensures (forall f :: f in files ==> f.mimetype in ALLOWED_MIME_TYPES && f.size <= MAX_FILE_SIZE
                                        && MaxCountOf(limits, f.field).Some?
                                        && FieldCount(files, f.field) <= MaxCountOf(limits, f.field).value)
            ==> CheckUploads(files, limits) == None
  {
    if CheckUploads(files, limits) == None {
      forall f | f in files
        ensures f.mimetype in ALLOWED_MIME_TYPES && f.size <= MAX_FILE_SIZE
        ensures MaxCountOf(limits, f.field).Some?
        ensures FieldCount(files, f.field) <= MaxCountOf(limits, f.field).value
      {
        var k :| 0 <= k < |files| && files[k] == f;
        assert FileVerdict(files, limits, k) == None;
        var last := LastOfField(files, f.field, k);
        assert FileVerdict(files, limits, last) == None;
        assert files[..|files|] == files;
      }
    }
    if forall f :: f in files ==> f.mimetype in ALLOWED_MIME_TYPES && f.size <= MAX_FILE_SIZE
                                  && MaxCountOf(limits, f.field).Some?
                                  && FieldCount(files, f.field) <= MaxCountOf(limits, f.field).value {
      forall k | 0 <= k < |files| ensures FileVerdict(files, limits, k) == None {
        assert files[k] in files;
        PrefixCountBelow(files, files[k].field, k + 1);
      }
    }
  }

  /** A prefix never holds more files of a field than the whole request. */
  lemma {:induction false} PrefixCountBelow(files: seq<IncomingFile>, field: string, k: nat)
    requires k <= |files|
    ensures FieldCount(files[..k], field) <= FieldCount(files, field)
    decreases |files| - k
  {
    if k < |files| {
      PrefixCountBelow(files, field, k + 1);
      assert files[..k + 1][..k] == files[..k];
    } else {
      assert files[..k] == files;
    }
  }

  /** The last file of the field at or after position k, whose prefix count is the total. */
  lemma {:induction false} LastOfField(files: seq<IncomingFile>, field: string, k: nat) returns (last: nat)
    requires k < |files| && files[k].field == field
    ensures k <= last < |files| && files[last].field == field
    ensures FieldCount(files[..last + 1], field) == FieldCount(files, field)
    decreases |files|
  {
    var n := |files|;
    if files[n - 1].field == field {
      last := n - 1;
      assert files[..last + 1] == files;
    } else {
      var init := files[..n - 1];
      assert FieldCount(files, field) == FieldCount(init, field);
      last := LastOfField(init, field, k);
      assert init[..last + 1] == files[..last + 1];
    }
  }

  // ---------------------------------------------------------------- route table

  datatype Verb = GET | POST | PUT | DELETE

  /** A path segment of a route pattern: literal text or a `:param`. */
  datatype Segment = Lit(text: string) | Param

  datatype Handler =
    | CreateChatbot | UpdateChatbot | GetUserStats | ListMyChatbots | GetQRCodes
    | GetChatbot | SendMessage | GetChatbotStats | GetConversations | UploadDocuments
    | RegenerateQRCode | EndSession | GetChatbotForEdit

  datatype Route = Route(verb: Verb, pattern: seq<Segment>, auth: bool, handler: Handler)

  /** The routes in registration order, with whether the auth middleware runs first. */
  const ROUTES: seq<Route> := [
    Route(POST, [], true, CreateChatbot),
    Route(PUT, [Param], true, UpdateChatbot),
    Route(GET, [Lit("user-stats")], true, GetUserStats),
    Route(GET, [Lit("my")], true, ListMyChatbots),
    Route(GET, [], true, ListMyChatbots),
    Route(GET, [Lit("qr-codes")], true, GetQRCodes),
    Route(GET, [Param], false, GetChatbot),
    Route(POST, [Param, Lit("messages")], false, SendMessage),
    Route(GET, [Param, Lit("stats")], true, GetChatbotStats),
    Route(GET, [Param, Lit("conversations")], false, GetConversations),
    Route(POST, [Param, Lit("documents")], true, UploadDocuments),
    Route(POST, [Param, Lit("regenerate-qr")], true, RegenerateQRCode),
    Route(POST, [Param, Lit("end-session")], false, EndSession),
    Route(GET, [Param, Lit("edit")], true, GetChatbotForEdit)
  ]

  predicate SegmentMatches(p: Segment, s: string)
  {
    match p
    case Lit(t) => s == t
    case Param => s != ""
  }

  predicate RouteMatches(r: Route, verb: Verb, path: seq<string>)
  {
    r.verb == verb && |r.pattern| == |path|
    && forall i :: 0 <= i < |path| ==> SegmentMatches(r.pattern[i], path[i])
  }

  /** The first route at index `k` or later that matches, as Express tries them in order. */
  function DispatchFrom(verb: Verb, path: seq<string>, k: nat): (r: Option<nat>)
    requires k <= |ROUTES|
    decreases |ROUTES| - k
    ensures r.Some? ==> k <= r.value < |ROUTES| && RouteMatches(ROUTES[r.value], verb, path)
    ensures r.Some? ==> forall j :: k <= j < r.value ==> !RouteMatches(ROUTES[j], verb, path)
    ensures r.None? ==> forall j :: k <= j < |ROUTES| ==> !RouteMatches(ROUTES[j], verb, path)
  {
    if k == |ROUTES| then None
    else if RouteMatches(ROUTES[k], verb, path) then Some(k)
    else DispatchFrom(verb, path, k + 1)
  }

  function Dispatch(verb: Verb, path: seq<string>): Option<Route>
  {
    var r := DispatchFrom(verb, path, 0);
    if r.None? then None else Some(ROUTES[r.value])
  }

  /** The literal GET paths are registered before '/:id', so they never reach getChatbot. */
  lemma StaticPathsWin()
    ensures Dispatch(GET, ["user-stats"]) == Some(Route(GET, [Lit("user-stats")], true, GetUserStats))
    ensures Dispatch(GET, ["my"]) == Some(Route(GET, [Lit("my")], true, ListMyChatbots))
    ensures Dispatch(GET, ["qr-codes"]) == Some(Route(GET, [Lit("qr-codes")], true, GetQRCodes))
  {
    UserStatsWins();
    MyWins();
    QRCodesWins();
  }

  // The route each literal path is dispatched to, one path per lemma.
  lemma UserStatsWins()
    ensures DispatchFrom(GET, ["user-stats"], 0) == Some(2)
  {
    assert RouteMatches(ROUTES[2], GET, ["user-stats"]);
  }

  lemma MyWins()
    ensures DispatchFrom(GET, ["my"], 0) == Some(3)
  {
    assert RouteMatches(ROUTES[3], GET, ["my"]);
    assert !SegmentMatches(ROUTES[2].pattern[0], "my");
  }

  lemma QRCodesWins()
    ensures DispatchFrom(GET, ["qr-codes"], 0) == Some(5)
  {
    assert RouteMatches(ROUTES[5], GET, ["qr-codes"]);
    assert !SegmentMatches(ROUTES[2].pattern[0], "qr-codes");
    assert !SegmentMatches(ROUTES[3].pattern[0], "qr-codes");
  }

  /** Every other single segment is a chatbot id served without authentication. */
  lemma {:induction false} OtherSegmentsReachGetChatbot(x: string)
    requires x != "" && x != "user-stats" && x != "my" && x != "qr-codes"
    ensures Dispatch(GET, [x]) == Some(Route(GET, [Param], false, GetChatbot))
  {
    assert RouteMatches(ROUTES[6], GET, [x]);
    assert forall j :: 0 <= j < 6 ==> !RouteMatches(ROUTES[j], GET, [x]) by {
      assert !SegmentMatches(ROUTES[2].pattern[0], x);
      assert !SegmentMatches(ROUTES[3].pattern[0], x);
      assert !SegmentMatches(ROUTES[5].pattern[0], x);
    }
  }

  /** Only getChatbot, sendMessage, getConversations and endSession are reachable without auth. */
  lemma PublicHandlers(verb: Verb, path: seq<string>)
    ensures Dispatch(verb, path).Some? && !Dispatch(verb, path).value.auth ==>
              Dispatch(verb, path).value.handler in {GetChatbot, SendMessage, GetConversations, EndSession}
  {
  }

  /** No route of the chatbot router answers DELETE: the frontend's delete request matches nothing. */
  lemma NoDeleteRoute(path: seq<string>)
    ensures Dispatch(DELETE, path).None?
  {
    assert forall j :: 0 <= j < |ROUTES| ==> ROUTES[j].verb != DELETE;
  }
}
